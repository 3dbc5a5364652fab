/** The built-in subscription sources of MainActivity: URL templates that splice formatter
    output into fixed text, the 22-entry list fetched by the "update all built-in sources"
    action, and the 22 single-source handlers (the custom one and Free1..Free21). */
module SourceTable {
  import opened DateFormat

  /** A piece of a URL: literal text or the output of one of the date formatters. */
  datatype Part = Text(s: string) | Stamp(p: Pattern)

  type Template = seq<Part>

  function Render(part: Part, d: Date): string {
    match part
    case Text(s) => s
    case Stamp(p) => Format(p, d)
  }

  /** The string the source's `+` chain builds for date `d`. */
  function Expand(t: Template, d: Date): (url: string)
    ensures t != [] ==> Render(t[0], d) <= url
  {
    if t == [] then "" else Render(t[0], d) + Expand(t[1..], d)
  }

  function Fixed(url: string): Template {
    [Text(url)]
  }

  predicate DateDependent(t: Template) {
    exists i :: 0 <= i < |t| && t[i].Stamp?
  }

  const Proxy: string := "https://ghproxy.com/"

  /** freenode.me: uploads/yyyy/MM/MMdd.txt */
  const Freenode: Template :=
    [Text("https://freenode.me/wp-content/uploads/"), Stamp(Sdf1), Text("/"), Stamp(Sdf2), Text("/"), Stamp(Sdf3), Text(".txt")]

  /** nodefree.org: dy/yyyy/MM/yyyyMMdd.txt */
  const Nodefree: Template :=
    [Text("https://nodefree.org/dy/"), Stamp(Sdf1), Text("/"), Stamp(Sdf2), Text("/"), Stamp(Sdf4), Text(".txt")]

  /** vpn-free-nodes (through the proxy): node-list/yyyy-MM/dd日00时00分.md */
  const VpnFreeNodes: Template :=
    [Text("https://ghproxy.com/https://raw.githubusercontent.com/vpn-free-nodes/blob/master/node-list/"),
     Stamp(Sdf1), Text("-"), Stamp(Sdf2), Text("/"), Stamp(Sdf5), Text("日00时00分.md")]

  /** The array `arrs` built by importConfigCustomSetViaSub, in order. */
  const BatchTemplates: seq<Template> := [
    Freenode,
    Fixed("https://ghproxy.com/https://raw.githubusercontent.com/Pawdroid/Free-servers/main/sub"),
    Fixed("https://bulinkbulink.com/freefq/free/master/v2"),
    Fixed("https://ghproxy.com/https://raw.githubusercontent.com/aiboboxx/v2rayfree/main/v2"),
    Fixed("https://ghproxy.com/https://raw.githubusercontent.com/umelabs/node.umelabs.dev/master/Subscribe/v2ray.md"),
    Fixed("https://raw.gitmirror.com/ripaojiedian/freenode/main/sub"),
    Fixed("https://gitlab.com/mianfeifq/share/-/raw/master/data2023109.txt"),
    Fixed("https://ghproxy.com/https://raw.githubusercontent.com/mfuu/v2ray/master/clash.yaml"),
    Nodefree,
    Fixed("https://ghproxy.com/https://raw.githubusercontent.com/ermaozi01/free_clash_vpn/main/subscribe/v2ray.txt"),
    Fixed("https://ghproxy.com/https://raw.githubusercontent.com/a2470982985/getNode/main/v2ray.txt"),
    Fixed("https://ghproxy.com/https://raw.githubusercontent.com/freev2/free/main/v2"),
    Fixed("https://ghproxy.com/https://raw.githubusercontent.com/adiwzx/freenode/main/adifree.txt"),
    Fixed("https://ghproxy.com/https://raw.githubusercontent.com/adiwzx/freenode/main/adispeed.txt"),
    Fixed("https://ghproxy.com/https://raw.githubusercontent.com/vveg26/chromego_merge/main/sub/shadowrocket_base64.txt"),
    Fixed("https://ghproxy.com/https://raw.githubusercontent.com/codingbox/Free-Node-Merge/main/node.txt"),
    VpnFreeNodes,
    Fixed("https://ghproxy.com/https://raw.githubusercontent.com/ZywChannel/free/main/sub"),
    Fixed("https://ghproxy.com/https://raw.githubusercontent.com/Lewis-1217/FreeNodes/main/bpjzx1"),
    Fixed("https://ghproxy.com/https://raw.githubusercontent.com/Lewis-1217/FreeNodes/main/bpjzx2"),
    Fixed("https://ghproxy.com/https://raw.githubusercontent.com/ts-sf/fly/main/v2"),
    Fixed("https://ghproxy.com/https://raw.githubusercontent.com/outnow/outnowmain/free")
  ]

  /** The URLs the batch action fetches on date `d`, one per table entry. */
  function BatchUrls(d: Date): (urls: seq<string>)
    ensures |urls| == |BatchTemplates| == 22
  {
    seq(|BatchTemplates|, i requires 0 <= i < |BatchTemplates| => Expand(BatchTemplates[i], d))
  }

  /** The toast title resource a handler posts first. */
  datatype Title = SubCustomUpdate | SubFreeUpdate(n: int)

  /** A single-source handler: its title, the text of the message it posts before fetching,
      and the URL it fetches. */
  datatype Handler = Handler(title: Title, notice: Template, fetch: Template)

  /** importConfigCustomViaSub (index 0) and importConfigFree1ViaSub .. importConfigFree21ViaSub,
      each written out with the literals of its own handler. */
  const Handlers: seq<Handler> := [
    Handler(SubCustomUpdate,
      [Text("https://freenode.me/wp-content/uploads/"), Stamp(Sdf1), Text("/"), Stamp(Sdf2), Text("/"), Stamp(Sdf3), Text(".txt")],
      [Text("https://freenode.me/wp-content/uploads/"), Stamp(Sdf1), Text("/"), Stamp(Sdf2), Text("/"), Stamp(Sdf3), Text(".txt")]),
    Handler(SubFreeUpdate(1),
      Fixed("https://raw.githubusercontent.com/Pawdroid/Free-servers/main/sub"),
      Fixed("https://ghproxy.com/https://raw.githubusercontent.com/Pawdroid/Free-servers/main/sub")),
    Handler(SubFreeUpdate(2),
      Fixed("https://bulinkbulink.com/freefq/free/master/v2"),
      Fixed("https://bulinkbulink.com/freefq/free/master/v2")),
    Handler(SubFreeUpdate(3),
      Fixed("https://raw.githubusercontent.com/aiboboxx/v2rayfree/main/v2"),
      Fixed("https://ghproxy.com/https://raw.githubusercontent.com/aiboboxx/v2rayfree/main/v2")),
    Handler(SubFreeUpdate(4),
      Fixed("https://raw.githubusercontent.com/umelabs/node.umelabs.dev/master/Subscribe/v2ray.md"),
      Fixed("https://ghproxy.com/https://raw.githubusercontent.com/umelabs/node.umelabs.dev/master/Subscribe/v2ray.md")),
    Handler(SubFreeUpdate(5),
      Fixed("https://raw.gitmirror.com/ripaojiedian/freenode/main/sub"),
      Fixed("https://raw.gitmirror.com/ripaojiedian/freenode/main/sub")),
    Handler(SubFreeUpdate(6),
      Fixed("https://gitlab.com/mianfeifq/share/-/raw/master/data2023109.txt"),
      Fixed("https://gitlab.com/mianfeifq/share/-/raw/master/data2023109.txt")),
    Handler(SubFreeUpdate(7),
      Fixed("https://raw.githubusercontent.com/mfuu/v2ray/master/clash.yaml"),
      Fixed("https://ghproxy.com/https://raw.githubusercontent.com/mfuu/v2ray/master/clash.yaml")),
    Handler(SubFreeUpdate(8),
      [Text("https://nodefree.org/dy/"), Stamp(Sdf1), Text("/"), Stamp(Sdf2), Text("/"), Stamp(Sdf4), Text(".txt")],
      [Text("https://nodefree.org/dy/"), Stamp(Sdf1), Text("/"), Stamp(Sdf2), Text("/"), Stamp(Sdf4), Text(".txt")]),
    Handler(SubFreeUpdate(9),
      Fixed("https://raw.githubusercontent.com/ermaozi01/free_clash_vpn/main/subscribe/v2ray.txt"),
      Fixed("https://ghproxy.com/https://raw.githubusercontent.com/ermaozi01/free_clash_vpn/main/subscribe/v2ray.txt")),
    Handler(SubFreeUpdate(10),
      Fixed("https://raw.githubusercontent.com/a2470982985/getNode/main/v2ray.txt"),
      Fixed("https://ghproxy.com/https://raw.githubusercontent.com/a2470982985/getNode/main/v2ray.txt")),
    Handler(SubFreeUpdate(11),
      Fixed("https://raw.githubusercontent.com/freev2/free/main/v2"),
      Fixed("https://ghproxy.com/https://raw.githubusercontent.com/freev2/free/main/v2")),
    Handler(SubFreeUpdate(12),
      Fixed("https://raw.githubusercontent.com/adiwzx/freenode/main/adifree.txt"),
      Fixed("https://ghproxy.com/https://raw.githubusercontent.com/adiwzx/freenode/main/adifree.txt")),
    Handler(SubFreeUpdate(13),
      Fixed("https://raw.githubusercontent.com/adiwzx/freenode/main/adispeed.txt"),
      Fixed("https://ghproxy.com/https://raw.githubusercontent.com/adiwzx/freenode/main/adispeed.txt")),
    Handler(SubFreeUpdate(14),
      Fixed("https://raw.githubusercontent.com/vveg26/chromego_merge/main/sub/shadowrocket_base64.txt"),
      Fixed("https://ghproxy.com/https://raw.githubusercontent.com/vveg26/chromego_merge/main/sub/shadowrocket_base64.txt")),
    Handler(SubFreeUpdate(15),
      Fixed("https://raw.githubusercontent.com/codingbox/Free-Node-Merge/main/node.txt"),
      Fixed("https://ghproxy.com/https://raw.githubusercontent.com/codingbox/Free-Node-Merge/main/node.txt")),
    Handler(SubFreeUpdate(16),
      [Text("https://raw.githubusercontent.com/vpn-free-nodes/blob/master/node-list/"),
       Stamp(Sdf1), Text("-"), Stamp(Sdf2), Text("/"), Stamp(Sdf5), Text("日00时00分.md")],
      [Text("https://ghproxy.com/https://raw.githubusercontent.com/vpn-free-nodes/blob/master/node-list/"),
       Stamp(Sdf1), Text("-"), Stamp(Sdf2), Text("/"), Stamp(Sdf5), Text("日00时00分.md")]),
    Handler(SubFreeUpdate(17),
      Fixed("https://raw.githubusercontent.com/ZywChannel/free/main/sub"),
      Fixed("https://ghproxy.com/https://raw.githubusercontent.com/ZywChannel/free/main/sub")),
    Handler(SubFreeUpdate(18),
      Fixed("https://raw.githubusercontent.com/Lewis-1217/FreeNodes/main/bpjzx1"),
      Fixed("https://ghproxy.com/https://raw.githubusercontent.com/Lewis-1217/FreeNodes/main/bpjzx1")),
    Handler(SubFreeUpdate(19),
      Fixed("https://raw.githubusercontent.com/Lewis-1217/FreeNodes/main/bpjzx2"),
      Fixed("https://ghproxy.com/https://raw.githubusercontent.com/Lewis-1217/FreeNodes/main/bpjzx2")),
    Handler(SubFreeUpdate(20),
      Fixed("https://raw.githubusercontent.com/ts-sf/fly/main/v2"),
      Fixed("https://ghproxy.com/https://raw.githubusercontent.com/ts-sf/fly/main/v2")),
    Handler(SubFreeUpdate(21),
      Fixed("https://raw.githubusercontent.com/outnow/outnowmain/free"),
      Fixed("https://ghproxy.com/https://raw.githubusercontent.com/outnow/outnowmain/free"))
  ]

  /** The URL single handler `i` fetches on date `d`. */
  function HandlerUrl(i: nat, d: Date): (url: string)
    requires i < |Handlers|
    ensures url == BatchUrls(d)[i]
  {
    HandlerFetchesBatchEntry(i);
    Expand(Handlers[i].fetch, d)
  }

  // ---------------------------------------------------------------------------
  // Properties of the table

  /** Handler i fetches exactly the template of batch entry i, and each handler's title names it. */
  lemma HandlerFetchesBatchEntry(i: nat)
    requires i < |Handlers|
    ensures |Handlers| == |BatchTemplates| == 22
    ensures Handlers[i].fetch == BatchTemplates[i]
    ensures Handlers[i].title == if i == 0 then SubCustomUpdate else SubFreeUpdate(i)
  {
  }

  /** A template with no date part expands to the same URL on every date. */
  lemma {:induction false} FixedTemplateIgnoresDate(t: Template, d1: Date, d2: Date)
    requires !DateDependent(t)
    ensures Expand(t, d1) == Expand(t, d2)
  {
    if t != [] {
      assert !t[0].Stamp?;
      assert !DateDependent(t[1..]) by {
        forall i | 0 <= i < |t[1..]| ensures !t[1..][i].Stamp? {
          assert t[1..][i] == t[i + 1];
        }
      }
      FixedTemplateIgnoresDate(t[1..], d1, d2);
    }
  }

  /** Every stamp of the template fits its widths on date `d`. */
  predicate StampsFit(t: Template, d: Date) {
    forall i :: 0 <= i < |t| && t[i].Stamp? ==> Fits(t[i].p, d)
  }

  /** The stamps of a template all agree between two dates. */
  predicate SameStamps(t: Template, d1: Date, d2: Date) {
    forall i :: 0 <= i < |t| && t[i].Stamp? ==> Format(t[i].p, d1) == Format(t[i].p, d2)
  }

  /** When every stamp has a fixed width, two dates give the same URL iff every stamp renders the same. */
  lemma {:induction false} ExpandDeterminesStamps(t: Template, d1: Date, d2: Date)
    requires StampsFit(t, d1) && StampsFit(t, d2)
    ensures Expand(t, d1) == Expand(t, d2) <==> SameStamps(t, d1, d2)
  {
    if t != [] {
      var r1, r2 := Render(t[0], d1), Render(t[0], d2);
      assert |r1| == |r2| by {
        if t[0].Stamp? {
          FormatLength(t[0].p, d1);
          FormatLength(t[0].p, d2);
        }
      }
      assert StampsFit(t[1..], d1) && StampsFit(t[1..], d2) by {
        forall i | 0 <= i < |t[1..]| && t[1..][i].Stamp?
          ensures Fits(t[1..][i].p, d1) && Fits(t[1..][i].p, d2)
        {
          assert t[1..][i] == t[i + 1];
        }
      }
      ExpandDeterminesStamps(t[1..], d1, d2);
      if Expand(t, d1) == Expand(t, d2) {
        assert r1 == Expand(t, d1)[..|r1|];
        assert r2 == Expand(t, d2)[..|r2|];
        assert Expand(t[1..], d1) == Expand(t, d1)[|r1|..];
        assert Expand(t[1..], d2) == Expand(t, d2)[|r2|..];
        forall i | 0 <= i < |t| && t[i].Stamp?
          ensures Format(t[i].p, d1) == Format(t[i].p, d2)
        {
          if i > 0 {
            assert t[i] == t[1..][i - 1];
          }
        }
      }
      if SameStamps(t, d1, d2) {
        assert r1 == r2;
        forall i | 0 <= i < |t[1..]| && t[1..][i].Stamp?
          ensures Format(t[1..][i].p, d1) == Format(t[1..][i].p, d2)
        {
          assert t[1..][i] == t[i + 1];
        }
      }
    }
  }

  /** On a valid date with a four-digit year every formatter's fields fit their widths. */
  lemma FormattersFit(d: Date)
    requires ValidDate(d) && d.year < 10000
    ensures Fits(Sdf1, d) && Fits(Sdf2, d) && Fits(Sdf3, d) && Fits(Sdf4, d) && Fits(Sdf5, d)
  {
    assert Pow10(2) == 100 && Pow10(4) == 10000;
  }

  /** Only entries 0 (freenode), 8 (nodefree) and 16 (vpn-free-nodes) are date-templated. */
  lemma DatedEntries(i: nat)
    requires i < |BatchTemplates|
    ensures DateDependent(BatchTemplates[i]) <==> i == 0 || i == 8 || i == 16
  {
    if i == 0 || i == 8 || i == 16 {
      assert BatchTemplates[i][1].Stamp?;
    } else {
      assert |BatchTemplates[i]| == 1 && BatchTemplates[i][0].Text?;
    }
  }

  /** The entries without a date part fetch the same URL whatever the date. */
  lemma FixedEntriesIgnoreDate(i: nat, d1: Date, d2: Date)
    requires i < 22 && i != 0 && i != 8 && i != 16
    ensures BatchUrls(d1)[i] == BatchUrls(d2)[i]
  {
    DatedEntries(i);
    FixedTemplateIgnoresDate(BatchTemplates[i], d1, d2);
  }

  /** A template whose parts 1, 3 and 5 render the year, the month and a pattern ending in the day
      tells two dates apart whenever all its stamps fit their widths. */
  lemma TemplateIdentifiesDate(t: Template, d1: Date, d2: Date)
    requires StampsFit(t, d1) && StampsFit(t, d2)
    requires |t| > 5 && t[1] == Stamp(Sdf1) && t[3] == Stamp(Sdf2)
    requires t[5].Stamp? && |t[5].p| > 0 && t[5].p[|t[5].p| - 1] == Field(Day, 2)
    ensures Expand(t, d1) == Expand(t, d2) <==> d1 == d2
  {
    ExpandDeterminesStamps(t, d1, d2);
    if Expand(t, d1) == Expand(t, d2) {
      FormatDeterminesFields(Sdf1, d1, d2);
      FormatDeterminesFields(Sdf2, d1, d2);
      FormatDeterminesFields(t[5].p, d1, d2);
      assert FieldValue(t[5].p[|t[5].p| - 1].letter, d1) == FieldValue(t[5].p[|t[5].p| - 1].letter, d2);
    }
  }

  /** Each date-templated entry identifies the date: on valid dates with four-digit years two dates
      give the same URL for entry 0, 8 or 16 exactly when they are the same date. */
  lemma DatedEntriesIdentifyDate(i: nat, d1: Date, d2: Date)
    requires i == 0 || i == 8 || i == 16
    requires ValidDate(d1) && d1.year < 10000 && ValidDate(d2) && d2.year < 10000
    ensures BatchUrls(d1)[i] == BatchUrls(d2)[i] <==> d1 == d2
  {
    DatedUrls(d1);
    DatedUrls(d2);
    DatedTemplatesIdentifyDate(d1, d2);
  }

  /** The three dated templates each tell two valid dates with four-digit years apart. */
  lemma DatedTemplatesIdentifyDate(d1: Date, d2: Date)
    requires ValidDate(d1) && d1.year < 10000 && ValidDate(d2) && d2.year < 10000
    ensures Expand(Freenode, d1) == Expand(Freenode, d2) <==> d1 == d2
    ensures Expand(Nodefree, d1) == Expand(Nodefree, d2) <==> d1 == d2
    ensures Expand(VpnFreeNodes, d1) == Expand(VpnFreeNodes, d2) <==> d1 == d2
  {
    DatedTemplatesFit(d1);
    DatedTemplatesFit(d2);
    TemplateIdentifiesDate(Freenode, d1, d2);
    TemplateIdentifiesDate(Nodefree, d1, d2);
    TemplateIdentifiesDate(VpnFreeNodes, d1, d2);
  }

  /** Entries 0, 8 and 16 are the freenode, nodefree and vpn-free-nodes templates. */
  lemma DatedUrls(d: Date)
    ensures BatchUrls(d)[0] == Expand(Freenode, d)
    ensures BatchUrls(d)[8] == Expand(Nodefree, d)
    ensures BatchUrls(d)[16] == Expand(VpnFreeNodes, d)
  {
    assert BatchTemplates[0] == Freenode && BatchTemplates[8] == Nodefree && BatchTemplates[16] == VpnFreeNodes;
  }

  /** On a valid date with a four-digit year every stamp of the three dated templates fits. */
  lemma DatedTemplatesFit(d: Date)
    requires ValidDate(d) && d.year < 10000
    ensures StampsFit(Freenode, d) && StampsFit(Nodefree, d) && StampsFit(VpnFreeNodes, d)
  {
    FormattersFit(d);
  }

  /** Expanding from part `k` renders part `k` and then the rest. */
  lemma ExpandFrom(t: Template, k: nat, d: Date)
    requires k < |t|
    ensures Expand(t[k..], d) == Render(t[k], d) + Expand(t[k + 1..], d)
  {
    assert t[k..][1..] == t[k + 1..];
  }

  /** A seven-part template expands to the concatenation of its seven renderings. */
  lemma ExpandSeven(t: Template, d: Date)
    requires |t| == 7
    ensures Expand(t, d) == Render(t[0], d) + (Render(t[1], d) + (Render(t[2], d) + (Render(t[3], d)
                          + (Render(t[4], d) + (Render(t[5], d) + Render(t[6], d))))))
  {
    var e6 := Expand(t[6..], d);
    ExpandFrom(t, 6, d);
    assert t[7..] == [];
    assert e6 == Render(t[6], d);
    ExpandFrom(t, 5, d);
    var e5 := Expand(t[5..], d);
    assert e5 == Render(t[5], d) + e6;
    ExpandFrom(t, 4, d);
    var e4 := Expand(t[4..], d);
    assert e4 == Render(t[4], d) + e5;
    ExpandFrom(t, 3, d);
    var e3 := Expand(t[3..], d);
    assert e3 == Render(t[3], d) + e4;
    ExpandFrom(t, 2, d);
    var e2 := Expand(t[2..], d);
    assert e2 == Render(t[2], d) + e3;
    ExpandFrom(t, 1, d);
    assert t[0..] == t;
    ExpandFrom(t, 0, d);
  }

  /** The freenode entry is uploads/ + yyyy + "/" + MM + "/" + MMdd + ".txt". */
  lemma FreenodeUrl(d: Date)
    ensures BatchUrls(d)[0] ==
      "https://freenode.me/wp-content/uploads/" + (Format(Sdf1, d) + ("/" + (Format(Sdf2, d) + ("/" + (Format(Sdf3, d) + ".txt")))))
  {
    ExpandSeven(Freenode, d);
  }

  /** The nodefree entry is dy/ + yyyy + "/" + MM + "/" + yyyyMMdd + ".txt". */
  lemma NodefreeUrl(d: Date)
    ensures BatchUrls(d)[8] ==
      "https://nodefree.org/dy/" + (Format(Sdf1, d) + ("/" + (Format(Sdf2, d) + ("/" + (Format(Sdf4, d) + ".txt")))))
  {
    ExpandSeven(Nodefree, d);
  }

  /** 2023-10-14 gives .../uploads/2023/10/1014.txt. */
  lemma FreenodeExample()
    ensures BatchUrls(Date(2023, 10, 14))[0] ==
      "https://freenode.me/wp-content/uploads/" + ("2023" + ("/" + ("10" + ("/" + ("1014" + ".txt")))))
  {
    var d := Date(2023, 10, 14);
    FreenodeUrl(d);
    FormatterOctober2023();
  }

  /** 2023-10-24 gives .../dy/2023/10/20231024.txt. */
  lemma NodefreeExample()
    ensures BatchUrls(Date(2023, 10, 24))[8] ==
      "https://nodefree.org/dy/" + ("2023" + ("/" + ("10" + ("/" + ("20231024" + ".txt")))))
  {
    var d := Date(2023, 10, 24);
    NodefreeUrl(d);
    FormatterOctober2023();
  }

  /** Every batch URL is non-empty. */
  lemma BatchUrlsNonEmpty(d: Date, i: nat)
    requires i < 22
    ensures BatchUrls(d)[i] != ""
  {
    var t := BatchTemplates[i];
    assert t[0].Text? && |t[0].s| > 0;
    assert Expand(t, d) == t[0].s + Expand(t[1..], d);
  }
}

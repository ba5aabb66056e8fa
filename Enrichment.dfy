/** The flow enricher (`add_knowledge_for_files_in_dir`, knowledgebase.py lines 142-250): every
    flow-record (".bf") file of a directory is rewritten with four enrichment fields per flow, and
    the cache entries of every destination looked up during the run are deleted afterwards. */
module Enrichment {
  import opened Json
  import opened Http
  import opened Text
  import opened Knowledge

  // ---------------------------------------------------------------------------------------
  // Splitting `dst` on its last colon

  /** `s.split(":")`. */
  function Split(s: string): (parts: seq<string>)
    ensures |parts| >= 1
    decreases |s|
  {
    if s == [] then [""]
    else if s[0] == ':' then [""] + Split(s[1..])
    else
      var rest := Split(s[1..]);
      [[s[0]] + rest[0]] + rest[1..]
  }

  /** `":".join(parts)`. */
  function Join(parts: seq<string>): string
  {
    if parts == [] then ""
    else if |parts| == 1 then parts[0]
    else parts[0] + ":" + Join(parts[1..])
  }

  /** Joining the pieces of a split gives the string back. */
  lemma {:induction false} JoinSplit(s: string)
    ensures Join(Split(s)) == s
    decreases |s|
  {
    if s != [] {
      JoinSplit(s[1..]);
      var rest := Split(s[1..]);
      var parts := Split(s);
      assert s == [s[0]] + s[1..];
      if s[0] == ':' {
        assert parts[0] == "" && parts[1..] == rest;
      } else if |rest| == 1 {
        assert parts == [[s[0]] + rest[0]];
      } else {
        assert parts[0] == [s[0]] + rest[0] && parts[1..] == rest[1..];
        assert Join(rest) == rest[0] + ":" + Join(rest[1..]);
        assert Join(parts) == ([s[0]] + rest[0]) + ":" + Join(rest[1..]);
      }
    }
  }

  /** No piece of a split contains the separator. */
  lemma {:induction false} SplitPiecesHaveNoColon(s: string)
    ensures forall i :: 0 <= i < |Split(s)| ==> ':' !in Split(s)[i]
    decreases |s|
  {
    if s != [] {
      SplitPiecesHaveNoColon(s[1..]);
    }
  }

  /** A string without a colon splits into itself alone. */
  lemma {:induction false} SplitWithoutColon(s: string)
    requires ':' !in s
    ensures Split(s) == [s]
    decreases |s|
  {
    if s != [] {
      assert ':' !in s[1..] by {
        forall i | 0 <= i < |s[1..]| ensures s[1..][i] != ':' { assert s[1..][i] == s[i + 1]; }
      }
      SplitWithoutColon(s[1..]);
      assert s == [s[0]] + s[1..];
    }
  }

  /** Joining all pieces is joining all but the last, a colon, and the last. */
  lemma {:induction false} JoinLast(parts: seq<string>)
    requires |parts| >= 2
    ensures Join(parts) == Join(parts[..|parts| - 1]) + ":" + parts[|parts| - 1]
    decreases |parts|
  {
    if |parts| > 2 {
      JoinLast(parts[1..]);
      assert parts[1..][..|parts| - 2] == parts[..|parts| - 1][1..];
    }
  }

  /** When two colon splits of one string differ in suffix length, the longer suffix holds
      the other split's colon. */
  lemma ColonInsideLongerSuffix(a: string, b: string, a': string, b': string)
    requires a + ":" + b == a' + ":" + b'
    requires |b| < |b'|
    ensures b'[|b'| - |b| - 1] == ':'
  {
    var s := a + ":" + b;
    assert s[|s| - |b| - 1] == ':';
    assert b'[|b'| - |b| - 1] == (a' + ":" + b')[|s| - |b| - 1];
  }

  /** A string has at most one way to be written as a prefix, a colon and a colon-free suffix. */
  lemma LastColonUnique(a: string, b: string, a': string, b': string)
    requires a + ":" + b == a' + ":" + b'
    requires ':' !in b && ':' !in b'
    ensures a == a' && b == b'
  {
    var s := a + ":" + b;
    if |b| < |b'| {
      ColonInsideLongerSuffix(a, b, a', b');
      assert false;
    } else if |b'| < |b| {
      ColonInsideLongerSuffix(a', b', a, b);
      assert false;
    }
    assert b == s[|s| - |b|..] == b';
    assert a == s[..|a|] == a';
  }

  predicate IsDigits(s: string)
  {
    |s| > 0 && forall i :: 0 <= i < |s| ==> '0' <= s[i] <= '9'
  }

  /** `int(s)` on a string of decimal digits. */
  function DigitsValue(s: string): nat
    requires forall i :: 0 <= i < |s| ==> '0' <= s[i] <= '9'
  {
    if s == [] then 0 else DigitsValue(s[..|s| - 1]) * 10 + (s[|s| - 1] as int - '0' as int)
  }

  // ---------------------------------------------------------------------------------------
  // Flow records

  /** One flow of a BayseFlow file with the twelve fields the enricher reads. */
  datatype Flow = Flow(
    src: Json, dst: string, destinationNameSource: Json,
    srcPkts: Json, srcBytes: Json, dstPkts: Json, dstBytes: Json,
    relativeStart: Json, protocolInformation: Json, identifier: Json,
    duration: Json, flowLabel: Json)

  /** The four enrichment fields a flow receives. */
  datatype Enrichment = Enrichment(
    destinationKnowledge: Json, destinationStats: Json,
    destinationFlowSummary: Json, parentKnowledge: Json)

  /** Where a flow goes: the host that is looked up and the port, absent for ICMP. */
  datatype Destination = Destination(host: string, port: Option<nat>)

  predicate IsIcmp(f: Flow)
  {
    f.protocolInformation == JStr("ICMP")
  }

  /** The text after the last colon of `dst`. */
  function PortText(dst: string): string
  {
    Split(dst)[|Split(dst)| - 1]
  }

  /** A flow the source can parse: a non-ICMP `dst` ends in a decimal port (otherwise `int`
      raises and the run aborts). */
  predicate WellFormedFlow(f: Flow)
  {
    IsIcmp(f) || IsDigits(PortText(f.dst))
  }

  /** The `dst` split: ICMP keeps it whole without a port; otherwise the host is everything
      before the last colon and the port is the number after it. */
  function ParseDst(f: Flow): Destination
    requires WellFormedFlow(f)
  {
    if IsIcmp(f) then Destination(f.dst, None)
    else
      var parts := Split(f.dst);
      Destination(Join(parts[..|parts| - 1]), Some(DigitsValue(parts[|parts| - 1])))
  }

  /** Everything before the last colon, a colon and the colon-free text after it rebuild the
      string; without any colon the text before it is empty. */
  lemma LastColonSplit(s: string)
    ensures ':' !in PortText(s)
    ensures ':' in s ==> Join(Split(s)[..|Split(s)| - 1]) + ":" + PortText(s) == s
    ensures ':' !in s ==> Join(Split(s)[..|Split(s)| - 1]) == "" && PortText(s) == s
  {
    var parts := Split(s);
    SplitPiecesHaveNoColon(s);
    JoinSplit(s);
    if |parts| >= 2 {
      JoinLast(parts);
    } else {
      assert Join(parts) == parts[0];
    }
  }

  /** A string written as a prefix, a colon and a colon-free suffix splits into exactly those. */
  lemma LastColonParts(s: string, host: string, port: string)
    requires s == host + ":" + port && ':' !in port
    ensures Join(Split(s)[..|Split(s)| - 1]) == host && PortText(s) == port
  {
    LastColonSplit(s);
    assert s[|host|] == ':';
    LastColonUnique(Join(Split(s)[..|Split(s)| - 1]), PortText(s), host, port);
  }

  /** For a non-ICMP flow, host, a colon and the colon-free port text rebuild `dst`; a `dst`
      without any colon leaves the host empty. */
  lemma ParseDstRebuilds(f: Flow)
    requires WellFormedFlow(f) && !IsIcmp(f)
    ensures ':' !in PortText(f.dst)
    ensures ParseDst(f).port == Some(DigitsValue(PortText(f.dst)))
    ensures ':' in f.dst ==> ParseDst(f).host + ":" + PortText(f.dst) == f.dst
    ensures ':' !in f.dst ==> ParseDst(f).host == "" && PortText(f.dst) == f.dst
  {
    LastColonSplit(f.dst);
  }

  /** An IPv6 literal keeps all its colons in the host. */
  lemma Ipv6Example(f: Flow)
    requires f.dst == "2001:db8::1:443" && !IsIcmp(f)
    ensures WellFormedFlow(f)
    ensures ParseDst(f) == Destination("2001:db8::1", Some(443))
  {
    LastColonParts(f.dst, "2001:db8::1", "443");
    assert DigitsValue("443") == 443 by {
      assert "443"[..2] == "44" && "44"[..1] == "4" && "4"[..0] == "";
    }
  }

  /** The twelve input fields, as the output record copies them. */
  function InputFields(f: Flow): seq<(string, Json)>
  {
    [ ("src", f.src), ("dst", JStr(f.dst)), ("destinationNameSource", f.destinationNameSource),
      ("srcPkts", f.srcPkts), ("srcBytes", f.srcBytes), ("dstPkts", f.dstPkts),
      ("dstBytes", f.dstBytes), ("relativeStart", f.relativeStart),
      ("protocolInformation", f.protocolInformation), ("identifier", f.identifier),
      ("duration", f.duration), ("label", f.flowLabel) ]
  }

  const EnrichmentKeys: seq<string> :=
    ["destination_knowledge", "destination_stats", "destination_flow_summary", "parent_knowledge"]

  /** A record that copies the flow's twelve fields and adds exactly the four enrichment keys. */
  predicate CopiesFlow(record: Json, f: Flow)
  {
    && record.JObj?
    && |record.fields| == 16
    && record.fields[..12] == InputFields(f)
    && KeysOf(record.fields[12..]) == EnrichmentKeys
  }

  /** The record appended to the output for a looked-up flow. */
  function FlowRecord(f: Flow, e: Enrichment): (record: Json)
    ensures CopiesFlow(record, f)
    ensures record.fields[12].1 == e.destinationKnowledge && record.fields[13].1 == e.destinationStats
    ensures record.fields[14].1 == e.destinationFlowSummary && record.fields[15].1 == e.parentKnowledge
  {
    var extra := [ ("destination_knowledge", e.destinationKnowledge),
                   ("destination_stats", e.destinationStats),
                   ("destination_flow_summary", e.destinationFlowSummary),
                   ("parent_knowledge", e.parentKnowledge) ];
    var fields := InputFields(f) + extra;
    assert fields[..12] == InputFields(f) && fields[12..] == extra;
    JObj(fields)
  }

  // ---------------------------------------------------------------------------------------
  // Extracting the enrichment fields from a knowledge-base payload

  /** `kb[outer][inner]`, failing unless both levels are dicts holding the key. */
  function Nested(kb: Json, outer: string, inner: string): (r: Option<Json>)
    ensures r.Some? <==> HasKey(kb, outer) && HasKey(Get(kb, outer).value, inner)
    ensures r.Some? ==> r.value == Get(Get(kb, outer).value, inner).value
    ensures kb == JNull ==> r == None
  {
    match Get(kb, outer)
    case Some(o) => Get(o, inner)
    case None => None
  }

  /** `{name: first key, "info": its value}`, or `{name: None, "info": {}}` when there is no
      first key (an empty dict, or something that is not a dict). */
  function FirstEntry(saveData: Json, nameKey: string): (r: Json)
    requires nameKey != "info"
    ensures r.JObj? && KeysOf(r.fields) == [nameKey, "info"]
    ensures saveData.JObj? && saveData.fields != [] ==>
              && Get(r, nameKey) == Some(JStr(KeysOf(saveData.fields)[0]))
              && Get(r, "info") == Get(saveData, KeysOf(saveData.fields)[0])
    ensures !(saveData.JObj? && saveData.fields != []) ==>
              Get(r, nameKey) == Some(JNull) && Get(r, "info") == Some(JObj([]))
  {
    if saveData.JObj? && saveData.fields != [] then
      JObj([(nameKey, JStr(saveData.fields[0].0)), ("info", saveData.fields[0].1)])
    else
      JObj([(nameKey, JNull), ("info", JObj([]))])
  }

  /** One name/port field: `None` exactly when the path is missing, else its first entry. */
  function NamePortField(kb: Json, outer: string, inner: string, nameKey: string): (r: Json)
    requires nameKey != "info"
    ensures r == JNull <==> Nested(kb, outer, inner) == None
    ensures Nested(kb, outer, inner).Some? ==> r == FirstEntry(Nested(kb, outer, inner).value, nameKey)
  {
    match Nested(kb, outer, inner)
    case Some(saveData) => FirstEntry(saveData, nameKey)
    case None => JNull
  }

  /** The four fields, each taken from its own path and failing on its own. */
  function Enrich(kb: Json): Enrichment
  {
    Enrichment(
      NamePortField(kb, "destination_info", "knowledge", "destination_nameport"),
      match Nested(kb, "destination_info", "statistics") case Some(v) => v case None => JNull,
      NamePortField(kb, "destination_info", "flow_summary", "destination_nameport"),
      NamePortField(kb, "parent_info", "knowledge", "parent_nameport"))
  }

  /** The statistics field is `kb["destination_info"]["statistics"]` as found, or `None` when
      either level is missing. */
  lemma EnrichStats(kb: Json)
    ensures HasKey(kb, "destination_info") && HasKey(Get(kb, "destination_info").value, "statistics") ==>
              Enrich(kb).destinationStats == Get(Get(kb, "destination_info").value, "statistics").value
    ensures !(HasKey(kb, "destination_info") && HasKey(Get(kb, "destination_info").value, "statistics")) ==>
              Enrich(kb).destinationStats == JNull
  {
  }

  /** A failed lookup (`None`) gives `None` in all four fields. */
  lemma EnrichNone()
    ensures Enrich(JNull) == Enrichment(JNull, JNull, JNull, JNull)
  {
  }

  /** What a skipped private flow receives. */
  const PrivateEnrichment := Enrichment(JObj([]), JObj([]), JObj([]), JObj([]))

  // ---------------------------------------------------------------------------------------
  // Flows and files

  /** `ipaddress.ip_address(host).is_private`; `InvalidIp` is the exception the source catches. */
  datatype IpKind = PrivateIp | PublicIp | InvalidIp

  /** An "original" destination name that is a private address is not looked up. */
  predicate SkipsLookup(f: Flow, ipKind: string -> IpKind)
    requires WellFormedFlow(f)
  {
    f.destinationNameSource == JStr("original") && ipKind(ParseDst(f).host) == PrivateIp
  }

  /** One flow's fields after processing, whether it is appended, and the destination queried. */
  datatype FlowOutcome = FlowOutcome(enrichment: Enrichment, kept: bool, store: Store, queried: set<string>)

  function FlowStep(s: Store, answer: nat -> Response, f: Flow, ipKind: string -> IpKind, now: int)
    : FlowOutcome
    requires WellFormedFlow(f)
  {
    var d := ParseDst(f);
    if SkipsLookup(f, ipKind) then FlowOutcome(PrivateEnrichment, false, s, {})
    else
      var l := GetDestinationInfoSpec(s, answer, d.host, f.protocolInformation, d.port, true, now);
      FlowOutcome(Enrich(l.data), true, l.store, {d.host})
  }

  /** A skipped flow gets `{}` in its four fields, is not appended and causes no lookup; any
      other flow (an unparsable address included) is looked up once and appended. */
  lemma FlowStepSkipRule(s: Store, answer: nat -> Response, f: Flow, ipKind: string -> IpKind, now: int)
    requires WellFormedFlow(f)
    ensures var o := FlowStep(s, answer, f, ipKind, now);
            && (o.kept <==> !SkipsLookup(f, ipKind))
            && (!o.kept ==> o.enrichment == PrivateEnrichment && o.store == s && o.queried == {})
            && (o.kept ==> o.queried == {ParseDst(f).host})
  {
  }

  predicate AllWellFormed(flows: seq<Flow>)
  {
    forall i :: 0 <= i < |flows| ==> WellFormedFlow(flows[i])
  }

  /** The records written so far, the store, and the destinations queried in this run. */
  datatype Progress = Progress(records: seq<Json>, store: Store, queried: set<string>)

  /** The flows of one file processed in order, starting from `p`. */
  function EnrichFlows(p: Progress, answer: nat -> Response, flows: seq<Flow>,
                       ipKind: string -> IpKind, now: int): Progress
    requires AllWellFormed(flows)
    decreases |flows|
  {
    if flows == [] then p
    else
      var prev := EnrichFlows(p, answer, flows[..|flows| - 1], ipKind, now);
      var f := flows[|flows| - 1];
      var o := FlowStep(prev.store, answer, f, ipKind, now);
      Progress(prev.records + (if o.kept then [FlowRecord(f, o.enrichment)] else []),
               o.store, prev.queried + o.queried)
  }

  /** The flows that are looked up, in input order. */
  function Kept(flows: seq<Flow>, ipKind: string -> IpKind): (kept: seq<Flow>)
    requires AllWellFormed(flows)
    ensures |kept| <= |flows|
    decreases |flows|
  {
    if flows == [] then []
    else
      var f := flows[|flows| - 1];
      Kept(flows[..|flows| - 1], ipKind) + (if SkipsLookup(f, ipKind) then [] else [f])
  }

  predicate RecordsMatch(records: seq<Json>, flows: seq<Flow>)
  {
    |records| == |flows| && forall i :: 0 <= i < |records| ==> CopiesFlow(records[i], flows[i])
  }

  /** The records of a file are exactly the non-skipped flows, in input order, each copying its
      flow's twelve fields and adding the four enrichment keys. */
  lemma {:induction false} RecordsFollowKeptFlows(p: Progress, answer: nat -> Response, flows: seq<Flow>,
                                                  ipKind: string -> IpKind, now: int)
    requires AllWellFormed(flows) && p.records == []
    ensures RecordsMatch(EnrichFlows(p, answer, flows, ipKind, now).records, Kept(flows, ipKind))
    decreases |flows|
  {
    if flows != [] {
      var init := flows[..|flows| - 1];
      assert AllWellFormed(init);
      RecordsFollowKeptFlows(p, answer, init, ipKind, now);
    }
  }

  /** Removing more keys keeps two maps that agree outside some keys in agreement. */
  lemma MinusMore<K, V>(a: map<K, V>, b: map<K, V>, q: set<K>, q': set<K>)
    requires a - q == b - q && q <= q'
    ensures a - q' == b - q'
  {
    assert a - q' == (a - q) - q';
    assert b - q' == (b - q) - q';
  }

  /** Every destination queried is recorded, and the cache changes only at recorded destinations. */
  lemma {:induction false} FlowsTouchOnlyQueried(p: Progress, answer: nat -> Response, flows: seq<Flow>,
                                                 ipKind: string -> IpKind, now: int)
    requires AllWellFormed(flows)
    ensures var r := EnrichFlows(p, answer, flows, ipKind, now);
            p.queried <= r.queried && r.store.cache - r.queried == p.store.cache - r.queried
    decreases |flows|
  {
    if flows != [] {
      var init := flows[..|flows| - 1];
      assert AllWellFormed(init);
      FlowsTouchOnlyQueried(p, answer, init, ipKind, now);
      var prev := EnrichFlows(p, answer, init, ipKind, now);
      var f := flows[|flows| - 1];
      var o := FlowStep(prev.store, answer, f, ipKind, now);
      FlowStepTouchesOnlyQueried(prev.store, answer, f, ipKind, now);
      var r := EnrichFlows(p, answer, flows, ipKind, now);
      assert r.queried == prev.queried + o.queried && r.store == o.store;
      MinusMore(o.store.cache, prev.store.cache, o.queried, r.queried);
      MinusMore(prev.store.cache, p.store.cache, prev.queried, r.queried);
    }
  }

  /** One flow changes the cache only at the destination it queries. */
  lemma FlowStepTouchesOnlyQueried(s: Store, answer: nat -> Response, f: Flow, ipKind: string -> IpKind, now: int)
    requires WellFormedFlow(f)
    ensures var o := FlowStep(s, answer, f, ipKind, now);
            o.store.cache - o.queried == s.cache - o.queried
  {
    var d := ParseDst(f);
    if !SkipsLookup(f, ipKind) {
      LookupTouchesOnlyItsEntry(s, answer, d.host, f.protocolInformation, d.port, true, now);
    }
  }

  /** A flow-record file: header fields and its flows. */
  datatype FlowFile = FlowFile(hash: Json, trafficDate: Json, fileName: Json, flows: seq<Flow>)

  /** A regular file of the directory: a flow-record file, or anything else. */
  datatype FileContent = FlowData(file: FlowFile) | OtherContent

  datatype DirEntry = DirEntry(name: string, content: FileContent)

  predicate IsFlowFile(e: DirEntry)
  {
    EndsWith(e.name, ".bf")
  }

  /** A ".bf" file holds a flow-record file whose flows the source can parse. */
  predicate WellFormedEntry(e: DirEntry)
  {
    IsFlowFile(e) ==> e.content.FlowData? && AllWellFormed(e.content.file.flows)
  }

  predicate AllEntriesWellFormed(entries: seq<DirEntry>)
  {
    forall i :: 0 <= i < |entries| ==> WellFormedEntry(entries[i])
  }

  /** The JSON written back for a flow-record file. */
  function Infused(ff: FlowFile, records: seq<Json>): Json
  {
    JObj([("hash", ff.hash), ("trafficDate", ff.trafficDate), ("fileName", ff.fileName),
          ("BayseFlows", JArr(records))])
  }

  /** What is written for each entry, the store, and the destinations queried. */
  datatype DirProgress = DirProgress(written: seq<(string, Json)>, store: Store, queried: set<string>)

  /** The entries of the directory processed in order; every entry is rewritten, a file that is
      not a flow-record file with `{}`. */
  function EnrichFiles(s: Store, answer: nat -> Response, entries: seq<DirEntry>,
                       ipKind: string -> IpKind, now: int): DirProgress
    requires AllEntriesWellFormed(entries)
    decreases |entries|
  {
    if entries == [] then DirProgress([], s, {})
    else
      var prev := EnrichFiles(s, answer, entries[..|entries| - 1], ipKind, now);
      var e := entries[|entries| - 1];
      if IsFlowFile(e) then
        var p := EnrichFlows(Progress([], prev.store, prev.queried), answer, e.content.file.flows, ipKind, now);
        DirProgress(prev.written + [(e.name, Infused(e.content.file, p.records))], p.store, p.queried)
      else
        DirProgress(prev.written + [(e.name, JObj([]))], prev.store, prev.queried)
  }

  /** What is written for one entry: the header copied and the records of the kept flows for a
      flow-record file, `{}` for any other file. */
  predicate WrittenFor(e: DirEntry, out: (string, Json), ipKind: string -> IpKind)
    requires WellFormedEntry(e)
  {
    && out.0 == e.name
    && (!IsFlowFile(e) ==> out.1 == JObj([]))
    && (IsFlowFile(e) ==>
          var ff := e.content.file;
          && out.1.JObj? && |out.1.fields| == 4
          && out.1.fields[..3] == [("hash", ff.hash), ("trafficDate", ff.trafficDate), ("fileName", ff.fileName)]
          && out.1.fields[3].0 == "BayseFlows" && out.1.fields[3].1.JArr?
          && RecordsMatch(out.1.fields[3].1.items, Kept(ff.flows, ipKind)))
  }

  /** Every entry is written once, in order, with the content `WrittenFor` describes. */
  lemma {:induction false} FilesWrittenInOrder(s: Store, answer: nat -> Response, entries: seq<DirEntry>,
                                               ipKind: string -> IpKind, now: int)
    requires AllEntriesWellFormed(entries)
    ensures var w := EnrichFiles(s, answer, entries, ipKind, now).written;
            |w| == |entries| && forall i :: 0 <= i < |w| ==> WrittenFor(entries[i], w[i], ipKind)
    decreases |entries|
  {
    if entries != [] {
      var init := entries[..|entries| - 1];
      assert AllEntriesWellFormed(init);
      FilesWrittenInOrder(s, answer, init, ipKind, now);
      var prev := EnrichFiles(s, answer, init, ipKind, now);
      var w := EnrichFiles(s, answer, entries, ipKind, now).written;
      var e := entries[|entries| - 1];
      var out := w[|w| - 1];
      assert w == prev.written + [out];
      if IsFlowFile(e) {
        var p := EnrichFlows(Progress([], prev.store, prev.queried), answer, e.content.file.flows, ipKind, now);
        RecordsFollowKeptFlows(Progress([], prev.store, prev.queried), answer, e.content.file.flows, ipKind, now);
        assert out == (e.name, Infused(e.content.file, p.records));
      }
      assert WrittenFor(e, out, ipKind);
      forall i | 0 <= i < |w|
        ensures WrittenFor(entries[i], w[i], ipKind)
      {
        if i < |w| - 1 {
          assert entries[i] == init[i] && w[i] == prev.written[i];
        }
      }
    }
  }

  /** Before cleanup, the cache differs from the initial one only at queried destinations. */
  lemma {:induction false} FilesTouchOnlyQueried(s: Store, answer: nat -> Response, entries: seq<DirEntry>,
                                                 ipKind: string -> IpKind, now: int)
    requires AllEntriesWellFormed(entries)
    ensures var r := EnrichFiles(s, answer, entries, ipKind, now);
            r.store.cache - r.queried == s.cache - r.queried
    decreases |entries|
  {
    if entries != [] {
      var init := entries[..|entries| - 1];
      assert AllEntriesWellFormed(init);
      FilesTouchOnlyQueried(s, answer, init, ipKind, now);
      var prev := EnrichFiles(s, answer, init, ipKind, now);
      var e := entries[|entries| - 1];
      if IsFlowFile(e) {
        var p0 := Progress([], prev.store, prev.queried);
        FlowsTouchOnlyQueried(p0, answer, e.content.file.flows, ipKind, now);
        var r := EnrichFlows(p0, answer, e.content.file.flows, ipKind, now);
        MinusMore(prev.store.cache, s.cache, prev.queried, r.queried);
      }
    }
  }

  /** The flow loop of one flow-record file (knowledgebase.py lines 164-243): the records
      appended and the destinations added to `cached_dests`. */
  method EnrichFileFlows(kb: KnowledgeBase, flows: seq<Flow>, ipKind: string -> IpKind, now: int,
                         cachedDests: set<string>)
    returns (records: seq<Json>, queried: set<string>)
    requires AllWellFormed(flows)
    modifies kb
    ensures Progress(records, kb.State(), queried)
         == EnrichFlows(Progress([], old(kb.State()), cachedDests), kb.answer, flows, ipKind, now)
  {
    ghost var start := Progress([], kb.State(), cachedDests);
    records, queried := [], cachedDests;
    var j := 0;
    while j < |flows|
      invariant 0 <= j <= |flows|
      invariant AllWellFormed(flows[..j])
      invariant Progress(records, kb.State(), queried) == EnrichFlows(start, kb.answer, flows[..j], ipKind, now)
    {
      assert flows[..j + 1][..j] == flows[..j];
      var record, hosts := EnrichOneFlow(kb, flows[j], ipKind, now);
      if record.Some? {
        records := records + [record.value];
      }
      queried := queried + hosts;
      j := j + 1;
    }
    assert flows[..j] == flows;
  }

  /** One iteration of the flow loop (knowledgebase.py lines 165-243): the record it appends,
      if any, and the destination it adds to `cached_dests`. */
  method EnrichOneFlow(kb: KnowledgeBase, flow: Flow, ipKind: string -> IpKind, now: int)
    returns (record: Option<Json>, queried: set<string>)
    requires WellFormedFlow(flow)
    modifies kb
    ensures var o := FlowStep(old(kb.State()), kb.answer, flow, ipKind, now);
            && record == (if o.kept then Some(FlowRecord(flow, o.enrichment)) else None)
            && queried == o.queried
            && kb.State() == o.store
  {
    var useCache := true;
    var d := ParseDst(flow);
    if flow.destinationNameSource == JStr("original") && ipKind(d.host) == PrivateIp {
      record, queried := None, {};
    } else {
      var kbData := kb.GetDestinationInfo(d.host, flow.protocolInformation, d.port, useCache, now);
      queried := if useCache then {d.host} else {};
      record := Some(FlowRecord(flow, Enrich(kbData)));
    }
  }

  /** The cleanup loop (knowledgebase.py lines 246-250): the cache file of every destination in
      `dests` is deleted. */
  method RemoveCached(kb: KnowledgeBase, dests: set<string>)
    modifies kb
    ensures kb.cache == old(kb.cache) - dests && kb.sent == old(kb.sent)
  {
    var pending := dests;
    while pending != {}
      invariant pending <= dests
      invariant kb.cache == old(kb.cache) - (dests - pending)
      invariant kb.sent == old(kb.sent)
      decreases pending
    {
      var d :| d in pending;
      kb.Unlink(d);
      pending := pending - {d};
    }
  }

  /** `add_knowledge_for_files_in_dir` over the entries of one directory, with the run's
      knowledge base (cache directory and session). */
  method EnrichDirectory(kb: KnowledgeBase, entries: seq<DirEntry>, ipKind: string -> IpKind, now: int)
    returns (written: seq<(string, Json)>)
    requires AllEntriesWellFormed(entries)
    modifies kb
    ensures var spec := EnrichFiles(old(kb.State()), kb.answer, entries, ipKind, now);
            && written == spec.written
            && kb.sent == spec.store.sent
            && kb.cache == spec.store.cache - spec.queried
            && kb.cache == old(kb.cache) - spec.queried
  {
    ghost var s0 := kb.State();
    var cachedDests: set<string> := {};
    written := [];
    var i := 0;
    while i < |entries|
      invariant 0 <= i <= |entries|
      invariant DirProgress(written, kb.State(), cachedDests) == EnrichFiles(s0, kb.answer, entries[..i], ipKind, now)
    {
      assert entries[..i + 1][..i] == entries[..i];
      var e := entries[i];
      var infused := JObj([]);
      if EndsWith(e.name, ".bf") {
        var records;
        records, cachedDests := EnrichFileFlows(kb, e.content.file.flows, ipKind, now, cachedDests);
        infused := Infused(e.content.file, records);
      }
      written := written + [(e.name, infused)];
      i := i + 1;
    }
    assert entries[..i] == entries;
    if cachedDests != {} {
      RemoveCached(kb, cachedDests);
    }
    FilesTouchOnlyQueried(s0, kb.answer, entries, ipKind, now);
  }
}

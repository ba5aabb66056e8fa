/** The command-line driver (demo.py): classifying the entries of an input directory,
    pairing Zeek conn and dns logs, issuing one conversion call per input file, enriching the
    output directory, and choosing what to do from the command-line flags. The converter and
    the enrichment step are external calls, recorded rather than executed. */
module Demo {
  import opened Json
  import opened Http
  import opened Text
  import Interpret

  // ---------------------------------------------------------------------------------------
  // Path names

  /** What `Path.iterdir` reports about an entry. */
  datatype Kind = RegularFile | Directory | Special
  datatype Entry = Entry(name: string, kind: Kind)

  /** The path of an entry of `dir`. */
  function Child(dir: string, name: string): string
  {
    dir + "/" + name
  }

  /** `s.rfind(c)`: the last index of `c`, or -1. */
  function RFind(s: string, c: char): (r: int)
    ensures -1 <= r < |s|
    ensures r >= 0 ==> s[r] == c
    ensures forall j :: r < j < |s| ==> s[j] != c
  {
    if s == [] then -1
    else if s[|s| - 1] == c then |s| - 1
    else RFind(s[..|s| - 1], c)
  }

  /** Whether pathlib sees a suffix: a last dot that is neither the first nor the last character. */
  predicate HasSuffix(name: string)
  {
    0 < RFind(name, '.') < |name| - 1
  }

  /** `Path.suffix`: from the last dot on, or empty. */
  function Suffix(name: string): (r: string)
    ensures HasSuffix(name) ==> r == name[RFind(name, '.')..] && r[0] == '.'
    ensures !HasSuffix(name) ==> r == ""
  {
    if HasSuffix(name) then name[RFind(name, '.')..] else ""
  }

  /** `Path.stem`: the name without its suffix. */
  function Stem(name: string): (r: string)
    ensures r + Suffix(name) == name
  {
    if HasSuffix(name) then name[..RFind(name, '.')] else name
  }

  /** `str.upper` on ASCII letters. */
  function Upper(s: string): (r: string)
    ensures |r| == |s|
    ensures forall i :: 0 <= i < |s| ==> r[i] == if 'a' <= s[i] <= 'z' then (s[i] as int - 32) as char else s[i]
  {
    seq(|s|, i requires 0 <= i < |s| => if 'a' <= s[i] <= 'z' then (s[i] as int - 32) as char else s[i])
  }

  const PcapSuffixes: seq<string> := [".CAP", ".PCAP", ".PCAPNG"]

  // ---------------------------------------------------------------------------------------
  // Classifying one directory level

  datatype Class = ConnLog | DnsLog | Pcap | Subdir | Ignored

  /** The elif chain: conn logs before dns logs before capture files; directories are kept
      for later; everything else is ignored. */
  function Classify(e: Entry): Class
  {
    match e.kind
    case Directory => Subdir
    case Special => Ignored
    case RegularFile =>
      if EndsWith(e.name, "conn.log") then ConnLog
      else if EndsWith(e.name, "dns.log") then DnsLog
      else if Upper(Suffix(e.name)) in PcapSuffixes then Pcap
      else Ignored
  }

  /** Path.stem drops a final ".log" from a name that has something before it. */
  lemma StemOfLog(stem: string)
    requires stem != []
    ensures Stem(stem + ".log") == stem
  {
    var name := stem + ".log";
    var n := |name|;
    assert name[n - 4] == '.' && name[n - 3] == 'l' && name[n - 2] == 'o' && name[n - 1] == 'g';
    assert RFind(name, '.') == n - 4;
    assert name[..n - 4] == stem;
  }

  /** A log's stem is its name without ".log" and ends in its tag: "conn" for a conn log,
      "dns" for a dns log. */
  lemma LogStem(name: string, tag: string)
    requires tag != []
    requires EndsWith(name, tag + ".log")
    ensures Stem(name) + ".log" == name
    ensures EndsWith(Stem(name), tag)
  {
    var n := |name|;
    var t := tag + ".log";
    var stem := name[..n - 4];
    assert name[n - |t|..] == t;
    assert name == stem + ".log" by {
      assert name[n - 4..] == name[n - |t|..][|tag|..] && t[|tag|..] == ".log";
      assert name == name[..n - 4] + name[n - 4..];
    }
    StemOfLog(stem);
    assert stem[|stem| - |tag|..] == tag by {
      assert stem[|stem| - |tag|..] == name[n - |t|..][..|tag|] && t[..|tag|] == tag;
    }
  }

  /** No stem ends both in "conn" and in "dns", so a Zeek entry never pairs a conn log with a
      dns log of the same stem. */
  lemma ConnDnsStemsDisjoint(s: string)
    ensures !(EndsWith(s, "conn") && EndsWith(s, "dns"))
  {
    if EndsWith(s, "conn") {
      assert s[|s| - 1] == s[|s| - 4..][3] == 'n';
      if |s| >= 3 {
        assert s[|s| - 3..][2] == 'n' != 's';
      }
    }
  }

  /** The paths of the entries of a class, in directory order. */
  function PathsOf(dir: string, entries: seq<Entry>, c: Class): (ps: seq<string>)
    ensures |ps| <= |entries|
  {
    if entries == [] then []
    else
      var e := entries[|entries| - 1];
      var front := PathsOf(dir, entries[..|entries| - 1], c);
      if Classify(e) == c then front + [Child(dir, e.name)] else front
  }

  /** A path is collected for a class exactly when some entry of that class has it. */
  lemma {:induction false} PathsOfMembers(dir: string, entries: seq<Entry>, c: Class, p: string)
    ensures p in PathsOf(dir, entries, c) <==> exists e :: e in entries && Classify(e) == c && p == Child(dir, e.name)
  {
    if entries != [] {
      var e := entries[|entries| - 1];
      var front := entries[..|entries| - 1];
      PathsOfMembers(dir, front, c, p);
      assert forall x :: x in entries <==> x in front || x == e by {
        assert entries == front + [e];
      }
    }
  }

  /** The elements of a sequence of paths. */
  function AsSet(ps: seq<string>): set<string>
  {
    set p | p in ps
  }

  /** The set of paths grows by the last entry's path when it is of the class. */
  lemma PathsOfSet(dir: string, entries: seq<Entry>, c: Class)
    requires entries != []
    ensures AsSet(PathsOf(dir, entries, c))
         == AsSet(PathsOf(dir, entries[..|entries| - 1], c))
            + if Classify(entries[|entries| - 1]) == c then {Child(dir, entries[|entries| - 1].name)} else {}
  {
  }

  /** The `{"conn": ..., "dns": ...}` record of one stem. */
  datatype ZeekPair = ZeekPair(conn: Option<string>, dns: Option<string>)

  /** The conn side or the dns side of a record. */
  function Side(p: ZeekPair, dns: bool): Option<string>
  {
    if dns then p.dns else p.conn
  }

  /** The class and the stem ending of each side. */
  function SideClass(dns: bool): Class { if dns then DnsLog else ConnLog }
  function SideTag(dns: bool): string { if dns then "dns" else "conn" }

  /** `zeek_files[stem][side] = path` for a log, creating the stem's record when it is new. */
  function File(z: map<string, ZeekPair>, dir: string, name: string, dns: bool): map<string, ZeekPair>
  {
    var s := Stem(name);
    var pair := if s in z then z[s] else ZeekPair(None, None);
    z[s := if dns then pair.(dns := Some(Child(dir, name))) else pair.(conn := Some(Child(dir, name)))]
  }

  /** Creating the record first and then setting its side is filing the log. */
  lemma FileInTwoSteps(z0: map<string, ZeekPair>, z1: map<string, ZeekPair>, dir: string, name: string, dns: bool)
    requires z1 == if Stem(name) in z0 then z0 else z0[Stem(name) := ZeekPair(None, None)]
    ensures File(z0, dir, name, dns)
         == z1[Stem(name) := if dns then z1[Stem(name)].(dns := Some(Child(dir, name)))
                             else z1[Stem(name)].(conn := Some(Child(dir, name)))]
  {
  }

  /** `zeek_files` after one more entry: a log is filed under its stem, on its side. */
  function ZeekStep(z: map<string, ZeekPair>, dir: string, e: Entry): map<string, ZeekPair>
  {
    match Classify(e)
    case ConnLog => File(z, dir, e.name, false)
    case DnsLog => File(z, dir, e.name, true)
    case _ => z
  }

  /** The logs are the entries whose names end in "conn.log" and "dns.log". */
  lemma ClassifyLog(e: Entry)
    ensures Classify(e) == SideClass(false) ==> EndsWith(e.name, SideTag(false) + ".log")
    ensures Classify(e) == SideClass(true) ==> EndsWith(e.name, SideTag(true) + ".log")
  {
  }

  /** `zeek_files` after the entries of the first loop. */
  function ZeekFiles(dir: string, entries: seq<Entry>): map<string, ZeekPair>
  {
    if entries == [] then map[]
    else ZeekStep(ZeekFiles(dir, entries[..|entries| - 1]), dir, entries[|entries| - 1])
  }

  /** The side of a record is the log named after its stem, and the stem carries that side's tag. */
  predicate SideFits(dir: string, s: string, p: ZeekPair, dns: bool)
  {
    Side(p, dns).Some? ==> Side(p, dns).value == Child(dir, s + ".log") && EndsWith(s, SideTag(dns))
  }

  /** Every record holds at least one log, each named after the record's stem. */
  predicate WellShaped(dir: string, z: map<string, ZeekPair>)
  {
    forall s :: s in z ==> SideFits(dir, s, z[s], false) && SideFits(dir, s, z[s], true)
                           && (z[s].conn.Some? || z[s].dns.Some?)
  }

  lemma FileShape(z: map<string, ZeekPair>, dir: string, name: string, dns: bool)
    requires WellShaped(dir, z)
    requires EndsWith(name, SideTag(dns) + ".log")
    ensures WellShaped(dir, File(z, dir, name, dns))
  {
    LogStem(name, SideTag(dns));
  }

  lemma ZeekStepShape(z: map<string, ZeekPair>, dir: string, e: Entry)
    requires WellShaped(dir, z)
    ensures WellShaped(dir, ZeekStep(z, dir, e))
  {
    ClassifyLog(e);
    if Classify(e) == ConnLog {
      FileShape(z, dir, e.name, false);
    } else if Classify(e) == DnsLog {
      FileShape(z, dir, e.name, true);
    }
  }

  /** `zeek_files` is always well shaped. */
  lemma {:induction false} ZeekShape(dir: string, entries: seq<Entry>)
    ensures WellShaped(dir, ZeekFiles(dir, entries))
  {
    if entries != [] {
      ZeekShape(dir, entries[..|entries| - 1]);
      ZeekStepShape(ZeekFiles(dir, entries[..|entries| - 1]), dir, entries[|entries| - 1]);
    }
  }

  /** So no record holds both a conn log and a dns log. */
  lemma ZeekNeverBoth(dir: string, entries: seq<Entry>, s: string)
    requires s in ZeekFiles(dir, entries)
    ensures !(ZeekFiles(dir, entries)[s].conn.Some? && ZeekFiles(dir, entries)[s].dns.Some?)
  {
    ZeekShape(dir, entries);
    ConnDnsStemsDisjoint(s);
  }

  /** The logs of one side held by the records of the stems in `ks`. */
  function SideOf(z: map<string, ZeekPair>, ks: set<string>, dns: bool): set<string>
  {
    set s | s in ks && s in z && Side(z[s], dns).Some? :: Side(z[s], dns).value
  }

  /** The path of a side, if it has one, as a set. */
  function OptSet(o: Option<string>): set<string>
  {
    if o.Some? then {o.value} else {}
  }

  /** Adding one stem adds its log, if it has one. */
  lemma SideOfAdd(z: map<string, ZeekPair>, ks: set<string>, k: string, dns: bool)
    requires k in z
    ensures SideOf(z, ks + {k}, dns)
         == SideOf(z, ks, dns) + OptSet(Side(z[k], dns))
  {
  }

  /** Filing a log adds it to its own side; a log of that side already filed under the same
      stem was the same path. */
  lemma FileSameSide(z: map<string, ZeekPair>, dir: string, name: string, dns: bool)
    requires WellShaped(dir, z)
    requires EndsWith(name, SideTag(dns) + ".log")
    ensures SideOf(File(z, dir, name, dns), File(z, dir, name, dns).Keys, dns) == SideOf(z, z.Keys, dns) + {Child(dir, name)}
  {
    var z' := File(z, dir, name, dns);
    var s := Stem(name);
    var p := Child(dir, name);
    LogStem(name, SideTag(dns));
    assert Side(z'[s], dns) == Some(p);
    forall x | x in SideOf(z', z'.Keys, dns)
      ensures x in SideOf(z, z.Keys, dns) + {p}
    {
      var t :| t in z' && Side(z'[t], dns).Some? && x == Side(z'[t], dns).value;
      if t != s {
        assert z'[t] == z[t];
      }
    }
    forall x | x in SideOf(z, z.Keys, dns)
      ensures x in SideOf(z', z'.Keys, dns)
    {
      var t :| t in z && Side(z[t], dns).Some? && x == Side(z[t], dns).value;
      if t == s {
        assert SideFits(dir, t, z[t], dns);
      } else {
        assert z'[t] == z[t];
      }
    }
  }

  /** Filing a log leaves the other side as it was. */
  lemma FileOtherSide(z: map<string, ZeekPair>, dir: string, name: string, filed: bool, dns: bool)
    requires filed != dns
    ensures SideOf(File(z, dir, name, filed), File(z, dir, name, filed).Keys, dns) == SideOf(z, z.Keys, dns)
  {
    var z' := File(z, dir, name, filed);
    forall t | t in z'
      ensures Side(z'[t], dns) == if t in z then Side(z[t], dns) else None
    {
    }
  }

  /** One step adds the entry's log to its own side and leaves the other side as it was. */
  lemma ZeekStepSide(z: map<string, ZeekPair>, dir: string, e: Entry, dns: bool)
    requires WellShaped(dir, z)
    ensures SideOf(ZeekStep(z, dir, e), ZeekStep(z, dir, e).Keys, dns)
         == SideOf(z, z.Keys, dns) + if Classify(e) == SideClass(dns) then {Child(dir, e.name)} else {}
  {
    ClassifyLog(e);
    var c := Classify(e);
    if c == ConnLog || c == DnsLog {
      var filed := c == DnsLog;
      if filed == dns {
        FileSameSide(z, dir, e.name, dns);
      } else {
        FileOtherSide(z, dir, e.name, filed, dns);
      }
    }
  }

  /** Every log of a side reaches the collected set of that side, and nothing else does. */
  lemma {:induction false} ZeekCollects(dir: string, entries: seq<Entry>, dns: bool)
    ensures SideOf(ZeekFiles(dir, entries), ZeekFiles(dir, entries).Keys, dns)
         == AsSet(PathsOf(dir, entries, SideClass(dns)))
  {
    if entries != [] {
      var front := entries[..|entries| - 1];
      ZeekCollects(dir, front, dns);
      ZeekShape(dir, front);
      ZeekStepSide(ZeekFiles(dir, front), dir, entries[|entries| - 1], dns);
      PathsOfSet(dir, entries, SideClass(dns));
    }
  }

  /** `collect_all_valid_at_level`: capture files and subdirectories in directory order, conn
      and dns logs as sets gathered through `zeek_files`. */
  method CollectAllValidAtLevel(dir: string, entries: seq<Entry>)
    returns (pcaps: seq<string>, connlogs: set<string>, dnslogs: set<string>, subdirs: seq<string>)
    ensures pcaps == PathsOf(dir, entries, Pcap)
    ensures subdirs == PathsOf(dir, entries, Subdir)
    ensures connlogs == AsSet(PathsOf(dir, entries, ConnLog))
    ensures dnslogs == AsSet(PathsOf(dir, entries, DnsLog))
  {
    pcaps, subdirs := [], [];
    var zeek: map<string, ZeekPair> := map[];
    for i := 0 to |entries|
      invariant zeek == ZeekFiles(dir, entries[..i])
      invariant pcaps == PathsOf(dir, entries[..i], Pcap)
      invariant subdirs == PathsOf(dir, entries[..i], Subdir)
    {
      assert entries[..i + 1][..i] == entries[..i] && entries[..i + 1][i] == entries[i];
      var e := entries[i];
      var c := Classify(e);
      if c == ConnLog || c == DnsLog {
        zeek := FileLog(zeek, dir, e.name, c == DnsLog);
      } else if c == Pcap {
        pcaps := pcaps + [Child(dir, e.name)];
      } else if c == Subdir {
        subdirs := subdirs + [Child(dir, e.name)];
      }
    }
    assert entries[..|entries|] == entries;
    connlogs, dnslogs := CollectSides(zeek);
    ZeekCollects(dir, entries, false);
    ZeekCollects(dir, entries, true);
  }

  /** The body of the first loop for a log: the stem's record is created when it is new, then
      its side is set. */
  method FileLog(zeek: map<string, ZeekPair>, dir: string, name: string, dns: bool)
    returns (z: map<string, ZeekPair>)
    ensures z == File(zeek, dir, name, dns)
  {
    var s := Stem(name);
    z := zeek;
    if s !in z {
      z := z[s := ZeekPair(None, None)];
    }
    FileInTwoSteps(zeek, z, dir, name, dns);
    if dns {
      z := z[s := z[s].(dns := Some(Child(dir, name)))];
    } else {
      z := z[s := z[s].(conn := Some(Child(dir, name)))];
    }
  }

  /** The second loop: every record's conn log and dns log, whichever it has. */
  method CollectSides(zeek: map<string, ZeekPair>) returns (connlogs: set<string>, dnslogs: set<string>)
    ensures connlogs == SideOf(zeek, zeek.Keys, false)
    ensures dnslogs == SideOf(zeek, zeek.Keys, true)
  {
    connlogs, dnslogs := {}, {};
    var keys := zeek.Keys;
    ghost var done: set<string> := {};
    while keys != {}
      invariant done + keys == zeek.Keys && done !! keys
      invariant connlogs == SideOf(zeek, done, false)
      invariant dnslogs == SideOf(zeek, done, true)
      decreases |keys|
    {
      var k :| k in keys;
      SideOfAdd(zeek, done, k, true);
      SideOfAdd(zeek, done, k, false);
      dnslogs := dnslogs + OptSet(zeek[k].dns);
      connlogs := connlogs + OptSet(zeek[k].conn);
      done := done + {k};
      keys := keys - {k};
    }
  }

  // ---------------------------------------------------------------------------------------
  // Conversion calls

  /** One call into the converter; `timed` says a start time was passed, `share` is
      `share_stats`. */
  datatype Conversion =
    | ZeekConversion(conn: string, dns: Option<string>, outdir: string, timed: bool, share: bool)
    | PcapConversion(pcap: string, outdir: string, timed: bool, share: bool)

  /** No path occurs twice. */
  predicate Distinct(xs: seq<string>)
  {
    forall i, j :: 0 <= i < j < |xs| ==> xs[i] != xs[j]
  }

  function Min(a: nat, b: nat): nat { if a < b then a else b }

  /** `zip(keys, values)`: pairs up to the shorter sequence. */
  function Zip(keys: seq<string>, values: seq<string>): (ps: seq<(string, string)>)
    ensures |ps| == Min(|keys|, |values|)
    ensures forall i :: 0 <= i < |ps| ==> ps[i] == (keys[i], values[i])
  {
    seq(Min(|keys|, |values|), i requires 0 <= i < Min(|keys|, |values|) => (keys[i], values[i]))
  }

  /** `dict(pairs)`: a repeated key keeps its first place and takes its last value. */
  function DictOf(pairs: seq<(string, string)>): (d: seq<(string, string)>)
    ensures |d| <= |pairs|
  {
    if pairs == [] then []
    else DictSet(DictOf(pairs[..|pairs| - 1]), pairs[|pairs| - 1].0, pairs[|pairs| - 1].1)
  }

  /** `dict(zip(keys, values))`. */
  function ZipDict(keys: seq<string>, values: seq<string>): seq<(string, string)>
  {
    DictOf(Zip(keys, values))
  }

  /** `d[k] = v` on an insertion-ordered dict. */
  function DictSet(d: seq<(string, string)>, k: string, v: string): (r: seq<(string, string)>)
    ensures |r| <= |d| + 1
  {
    if d == [] then [(k, v)]
    else if d[0].0 == k then [(k, v)] + d[1..]
    else [d[0]] + DictSet(d[1..], k, v)
  }

  /** Setting a new key appends it. */
  lemma {:induction false} DictSetNew(d: seq<(string, string)>, k: string, v: string)
    requires forall i :: 0 <= i < |d| ==> d[i].0 != k
    ensures DictSet(d, k, v) == d + [(k, v)]
  {
    if d != [] {
      DictSetNew(d[1..], k, v);
      assert [d[0]] + (d[1..] + [(k, v)]) == d + [(k, v)];
    }
  }

  /** A dict built from pairs with distinct keys holds exactly those pairs, in order. */
  lemma {:induction false} DictOfDistinct(pairs: seq<(string, string)>)
    requires forall i, j :: 0 <= i < j < |pairs| ==> pairs[i].0 != pairs[j].0
    ensures DictOf(pairs) == pairs
  {
    if pairs != [] {
      var front := pairs[..|pairs| - 1];
      DictOfDistinct(front);
      DictSetNew(front, pairs[|pairs| - 1].0, pairs[|pairs| - 1].1);
      assert front + [pairs[|pairs| - 1]] == pairs;
    }
  }

  /** Distinct keys are zipped one to one, up to the shorter sequence. */
  lemma ZipDistinct(keys: seq<string>, values: seq<string>)
    requires Distinct(keys)
    ensures ZipDict(keys, values) == Zip(keys, values)
  {
    DictOfDistinct(Zip(keys, values));
  }

  /** The calls `convert_and_label_files` makes: the Zeek logs (paired with dns logs when the
      zipped dict is non-empty, alone otherwise), then the capture files. */
  function ConversionsSpec(connlogs: seq<string>, dnslogs: seq<string>, pcaps: seq<string>,
                           outdir: string, timing: bool, noupload: bool): seq<Conversion>
  {
    var combined := if dnslogs != [] then ZipDict(connlogs, dnslogs) else [];
    var zeek := if combined != []
      then seq(|combined|, i requires 0 <= i < |combined| =>
                 ZeekConversion(combined[i].0, Some(combined[i].1), outdir, timing, !noupload))
      else seq(|connlogs|, i requires 0 <= i < |connlogs| =>
                 ZeekConversion(connlogs[i], None, outdir, timing, !noupload));
    zeek + seq(|pcaps|, i requires 0 <= i < |pcaps| => PcapConversion(pcaps[i], outdir, timing, !noupload))
  }

  /** `convert_and_label_files`; the logs arrive as sequences, in the order their sets are
      iterated. */
  method ConvertAndLabelFiles(connlogs: seq<string>, dnslogs: seq<string>, pcaps: seq<string>,
                              outdir: string, timing: bool, noupload: bool)
    returns (calls: seq<Conversion>)
    ensures calls == ConversionsSpec(connlogs, dnslogs, pcaps, outdir, timing, noupload)
  {
    var share := !noupload;
    var combined: seq<(string, string)> := [];
    if dnslogs != [] {
      combined := ZipDict(connlogs, dnslogs);
    }
    calls := [];
    if combined != [] {
      for i := 0 to |combined|
        invariant calls == seq(i, j requires 0 <= j < i => ZeekConversion(combined[j].0, Some(combined[j].1), outdir, timing, share))
      {
        calls := calls + [ZeekConversion(combined[i].0, Some(combined[i].1), outdir, timing, share)];
      }
    } else {
      for i := 0 to |connlogs|
        invariant calls == seq(i, j requires 0 <= j < i => ZeekConversion(connlogs[j], None, outdir, timing, share))
      {
        calls := calls + [ZeekConversion(connlogs[i], None, outdir, timing, share)];
      }
    }
    ghost var zeekCalls := calls;
    for i := 0 to |pcaps|
      invariant calls == zeekCalls + seq(i, j requires 0 <= j < i => PcapConversion(pcaps[j], outdir, timing, share))
    {
      calls := calls + [PcapConversion(pcaps[i], outdir, timing, share)];
    }
  }

  /** With dns logs and distinct conn logs, the i-th conn log is converted with the i-th dns
      log, for exactly as many conversions as the shorter of the two. */
  lemma PairedConversions(connlogs: seq<string>, dnslogs: seq<string>, pcaps: seq<string>,
                          outdir: string, timing: bool, noupload: bool)
    requires dnslogs != []
    requires Distinct(connlogs)
    ensures var calls := ConversionsSpec(connlogs, dnslogs, pcaps, outdir, timing, noupload);
            var n := if |connlogs| < |dnslogs| then |connlogs| else |dnslogs|;
            && |calls| == n + |pcaps|
            && forall i :: 0 <= i < n ==> calls[i] == ZeekConversion(connlogs[i], Some(dnslogs[i]), outdir, timing, !noupload)
  {
    ZipDistinct(connlogs, dnslogs);
  }

  /** Conn logs beyond the number of dns logs are never converted. */
  lemma LeftoverConnLogsSkipped(connlogs: seq<string>, dnslogs: seq<string>, pcaps: seq<string>,
                                outdir: string, timing: bool, noupload: bool, k: nat)
    requires dnslogs != [] && |dnslogs| <= k < |connlogs|
    requires Distinct(connlogs)
    ensures forall c :: c in ConversionsSpec(connlogs, dnslogs, pcaps, outdir, timing, noupload) && c.ZeekConversion?
              ==> c.conn != connlogs[k]
  {
    ZipDistinct(connlogs, dnslogs);
  }

  /** Without dns logs, each conn log is converted once, without a dns file. */
  lemma ConnOnlyConversions(connlogs: seq<string>, pcaps: seq<string>, outdir: string, timing: bool, noupload: bool)
    ensures var calls := ConversionsSpec(connlogs, [], pcaps, outdir, timing, noupload);
            && |calls| == |connlogs| + |pcaps|
            && forall i :: 0 <= i < |connlogs| ==> calls[i] == ZeekConversion(connlogs[i], None, outdir, timing, !noupload)
  {
  }

  /** Each capture file is converted once, after the Zeek logs, and every call shares its
      statistics exactly when uploading was not switched off. */
  lemma PcapsOnceAndShare(connlogs: seq<string>, dnslogs: seq<string>, pcaps: seq<string>,
                          outdir: string, timing: bool, noupload: bool)
    ensures var calls := ConversionsSpec(connlogs, dnslogs, pcaps, outdir, timing, noupload);
            && |calls| >= |pcaps|
            && calls[|calls| - |pcaps|..] == seq(|pcaps|, i requires 0 <= i < |pcaps| => PcapConversion(pcaps[i], outdir, timing, !noupload))
            && (forall c :: c in calls ==> c.share == !noupload && c.timed == timing && c.outdir == outdir)
            && (forall c :: c in calls[..|calls| - |pcaps|] ==> c.ZeekConversion?)
  {
    var calls := ConversionsSpec(connlogs, dnslogs, pcaps, outdir, timing, noupload);
    var combined := if dnslogs != [] then ZipDict(connlogs, dnslogs) else [];
    var zeekCount := if combined != [] then |combined| else |connlogs|;
    assert |calls| == zeekCount + |pcaps|;
    assert calls[..|calls| - |pcaps|] == calls[..zeekCount];
  }

  // ---------------------------------------------------------------------------------------
  // One directory level, end to end

  /** What `process_all_inputs` does, in order: conversions, then one enrichment of the output
      directory. */
  datatype Action = Convert(conversion: Conversion) | EnrichOutput(outdir: string)

  /** The run of one level, given the order `cs` and `ds` in which Python happens to iterate
      the conn and dns sets: the conversions of `ConversionsSpec`, then one enrichment. */
  predicate LevelRun(dir: string, entries: seq<Entry>, outdir: string, timing: bool, noupload: bool,
                     cs: seq<string>, ds: seq<string>, actions: seq<Action>)
  {
    var calls := ConversionsSpec(cs, ds, PathsOf(dir, entries, Pcap), outdir, timing, noupload);
    && Distinct(cs) && AsSet(cs) == AsSet(PathsOf(dir, entries, ConnLog))
    && Distinct(ds) && AsSet(ds) == AsSet(PathsOf(dir, entries, DnsLog))
    && actions == seq(|calls|, k requires 0 <= k < |calls| => Convert(calls[k])) + [EnrichOutput(outdir)]
  }

  /** The elements of a set, one by one in an arbitrary order, as Python iterates it. */
  method Enumerate(s: set<string>) returns (xs: seq<string>)
    ensures |xs| == |s|
    ensures forall x :: x in xs <==> x in s
    ensures Distinct(xs)
  {
    xs := [];
    var rest := s;
    while rest != {}
      invariant rest <= s
      invariant forall x :: x in xs <==> x in s - rest
      invariant Distinct(xs)
      invariant |xs| + |rest| == |s|
      decreases |rest|
    {
      var x :| x in rest;
      assert x !in xs;
      xs := xs + [x];
      rest := rest - {x};
    }
  }

  /** `process_all_inputs`: converts the files of this level only (subdirectories are collected
      but not visited) and then enriches the output directory once. */
  method ProcessAllInputs(dir: string, entries: seq<Entry>, outdir: string, timing: bool, noupload: bool)
    returns (actions: seq<Action>)
    ensures |actions| >= 1 && actions[|actions| - 1] == EnrichOutput(outdir)
    ensures forall k :: 0 <= k < |actions| - 1 ==> actions[k].Convert?
    ensures forall k :: 0 <= k < |actions| - 1 ==>
              var c := actions[k].conversion;
              && (c.ZeekConversion? ==> c.conn in PathsOf(dir, entries, ConnLog)
                                        && (c.dns.Some? ==> c.dns.value in PathsOf(dir, entries, DnsLog)))
              && (c.PcapConversion? ==> c.pcap in PathsOf(dir, entries, Pcap))
    ensures |actions| - 1 >= |PathsOf(dir, entries, Pcap)|
    ensures exists cs, ds :: LevelRun(dir, entries, outdir, timing, noupload, cs, ds, actions)
  {
    var pcaps, connSet, dnsSet, subdirs := CollectAllValidAtLevel(dir, entries);
    var connlogs := Enumerate(connSet);
    var dnslogs := Enumerate(dnsSet);
    var calls := ConvertAndLabelFiles(connlogs, dnslogs, pcaps, outdir, timing, noupload);
    ConversionsDrawnFrom(connlogs, dnslogs, pcaps, outdir, timing, noupload);
    actions := seq(|calls|, k requires 0 <= k < |calls| => Convert(calls[k])) + [EnrichOutput(outdir)];
    assert AsSet(connlogs) == connSet && AsSet(dnslogs) == dnsSet;
    assert LevelRun(dir, entries, outdir, timing, noupload, connlogs, dnslogs, actions);
  }

  /** Every conversion names a file from the given logs and capture files. */
  lemma ConversionsDrawnFrom(connlogs: seq<string>, dnslogs: seq<string>, pcaps: seq<string>,
                             outdir: string, timing: bool, noupload: bool)
    ensures var calls := ConversionsSpec(connlogs, dnslogs, pcaps, outdir, timing, noupload);
            && |calls| >= |pcaps|
            && forall c :: c in calls ==>
                 && (c.ZeekConversion? ==> c.conn in connlogs && (c.dns.Some? ==> c.dns.value in dnslogs))
                 && (c.PcapConversion? ==> c.pcap in pcaps)
  {
    if dnslogs != [] {
      ZipDrawnFrom(connlogs, dnslogs);
    }
  }

  /** A dict built from pairs holds only pairs from them. */
  lemma {:induction false} DictOfFrom(pairs: seq<(string, string)>)
    ensures forall kv :: kv in DictOf(pairs) ==> kv in pairs
  {
    if pairs != [] {
      var front := pairs[..|pairs| - 1];
      DictOfFrom(front);
      DictSetFrom(DictOf(front), pairs[|pairs| - 1].0, pairs[|pairs| - 1].1);
    }
  }

  /** Every zipped pair takes its key from `keys` and its value from `values`. */
  lemma ZipDrawnFrom(keys: seq<string>, values: seq<string>)
    ensures forall kv :: kv in ZipDict(keys, values) ==> kv.0 in keys && kv.1 in values
  {
    DictOfFrom(Zip(keys, values));
  }

  /** `d[k] = v` adds no pair other than `(k, v)`. */
  lemma {:induction false} DictSetFrom(d: seq<(string, string)>, k: string, v: string)
    ensures forall kv :: kv in DictSet(d, k, v) ==> kv in d || kv == (k, v)
  {
    if d != [] && d[0].0 != k {
      DictSetFrom(d[1..], k, v);
    }
  }

  // ---------------------------------------------------------------------------------------
  // Command-line dispatch

  /** The parsed flags; an absent string flag is `None`. */
  datatype Args = Args(e2e: Option<string>, outputDirectory: string, timing: bool, noupload: bool,
                       interpret: Option<string>, screenshot: bool, details: bool, url: Option<string>)

  datatype Command =
    | RunE2E(dir: string, outdir: string, timing: bool, noupload: bool)
    | NotADirectory(path: string)
    | FetchResult(url: string)
    | InterpretThenFetch(target: string, screenshot: bool, details: bool)
    | Help

  /** A string flag is acted on only when it is present and non-empty. */
  predicate Given(flag: Option<string>)
  {
    flag.Some? && flag.value != ""
  }

  /** The `__main__` block's choice; `isDir` says which paths are existing directories. */
  function Dispatch(args: Args, isDir: string -> bool): (c: Command)
    ensures Given(args.e2e) ==> c == (if isDir(args.e2e.value)
                                       then RunE2E(args.e2e.value, args.outputDirectory, args.timing, args.noupload)
                                       else NotADirectory(args.e2e.value))
    ensures !Given(args.e2e) && Given(args.url) ==> c == FetchResult(args.url.value)
    ensures !Given(args.e2e) && !Given(args.url) && Given(args.interpret) ==>
              c == InterpretThenFetch(args.interpret.value, args.screenshot, args.details)
    ensures c == Help <==> !Given(args.e2e) && !Given(args.url) && !Given(args.interpret)
  {
    if Given(args.e2e) then
      if isDir(args.e2e.value) then RunE2E(args.e2e.value, args.outputDirectory, args.timing, args.noupload)
      else NotADirectory(args.e2e.value)
    else if !Given(args.url) then
      if !Given(args.interpret) then Help
      else InterpretThenFetch(args.interpret.value, args.screenshot, args.details)
    else FetchResult(args.url.value)
  }

  /** The process exit status: 1 after printing help, 0 otherwise. */
  function ExitCode(c: Command): (code: int)
    ensures code == 1 <==> c == Help
    ensures code == 0 || code == 1
  {
    if c == Help then 1 else 0
  }

  /** `--url` wins over `--interpret`, whatever the interpret flags say. */
  lemma UrlIgnoresInterpret(args: Args, isDir: string -> bool, other: Option<string>)
    requires !Given(args.e2e) && Given(args.url)
    ensures Dispatch(args, isDir) == Dispatch(args.(interpret := other, screenshot := false, details := false), isDir)
  {
  }

  /** What an interpret run hands to `get_interpret_result`: nothing while the request is still
      pending; otherwise the returned value, fetched by `fetch` (`None` when fetching fails). */
  function InterpretAndFetch(submit: Response, replies: seq<Response>, fetch: Json -> Option<Json>,
                             host: Interpret.Host): (r: Option<Interpret.Report>)
    ensures r.None? <==> Interpret.InterpretSpec(submit, replies).StillPolling?
    ensures r.Some? ==> r.value == Interpret.ResultSpec(fetch(Interpret.InterpretSpec(submit, replies).value), host)
  {
    match Interpret.InterpretSpec(submit, replies)
    case StillPolling(_) => None
    case Returned(v, _) => Some(Interpret.ResultSpec(fetch(v), host))
  }

  /** Without a request id, the `None` that comes back is what gets fetched. */
  lemma NoRequestIdFetchesNone(submit: Response, replies: seq<Response>, fetch: Json -> Option<Json>,
                               host: Interpret.Host)
    requires !Truthy(Interpret.RequestId(submit)) && fetch(JNull) == None
    ensures InterpretAndFetch(submit, replies, fetch, host) == Some(Interpret.Report([], Interpret.NoDocument))
  {
  }
}

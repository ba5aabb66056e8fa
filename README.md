# e2e_demo in Dafny

A verified model of the core of the Bayse end-to-end demo. The demo converts network captures
(PCAPs and Zeek conn/dns logs) into BayseFlow files, enriches every flow with what the Bayse
destination knowledge base knows about its destination, and can send a URL to the Bayse
interpretation service and fetch the result.

The model has five files:

- `Json.dfy`: the Python values the code handles after `json.loads` or `pickle.load`, with
  insertion-ordered dicts, `d[k]`, `d[k] = v`, `del d[k]` and truthiness. It also holds an HTTP
  reply (status plus parsed body) and `str.endswith`.
- `Knowledge.dfy`: the knowledge-base client of `knowledgebase.py`.
  - Pure decisions: the request parameters, the extraction of `body` from a reply, the cache
    file name, the one-day freshness test and stamping with `last_saved`.
  - Specification functions for `save_results_to_cache`, `retrieve_cached_results` and
    `get_destination_info`.
  - A class `KnowledgeBase` holding the cache directory (a map from destination to the unpickled
    entry) and the log of requests sent by the session. Its methods are proved to follow the
    specification functions.
- `Enrichment.dfy`: `add_knowledge_for_files_in_dir`.
  - Splitting `dst` into host and port.
  - The private-address skip rule and the four enrichment fields.
  - The 16-field output record and the rewrite of every directory entry.
  - The removal of the cache entries of every destination queried during the run.
  - The method `EnrichDirectory` runs the nested loops against the `KnowledgeBase` object.
- `Interpret.dfy`: `interpret.py`.
  - The submit-then-poll loop, proved against a specification over the sequence of status
    replies.
  - The loop over the elements of an interpretation result: save a screenshot, print the
    fields, skip, or stop.
- `Demo.dfy`: `demo.py`.
  - Classifying the entries of one directory level.
  - Pairing Zeek logs through the `zeek_files` dict keyed by stem.
  - The conversion calls, the end-to-end run of one level, and the command-line dispatch.

Remote services are inputs:

- `answer(k)` is the reply the knowledge base gives to the k-th request of the session.
- Interpretation status replies are a finite sequence. When it runs out, the outcome is
  `StillPolling`.
- Whether a host is a private address is a function `ipKind` supplied by the caller.
- While a result document is processed, the timestamp of each element, whether a payload is
  valid base64 and whether a file can be written are supplied as a `Host`.

## Model

| member | source | states |
|---|---|---|
| Knowledge.BuildQuery | knowledgebase.py:18-22 | the port is part of the request exactly when it is present and non-zero; name and protocol always are |
| Knowledge.KbDataFromResponse | knowledgebase.py:44-55 | the result is not `None` only for a 200 reply whose JSON object has `body`, and then it is that `body` |
| Knowledge.CacheFileName | knowledgebase.py:58-69 | the path is the platform's cache directory, its delimiter, the destination and `.pkl` |
| Knowledge.CacheFileNameInjective | knowledgebase.py:68 | distinct destinations get distinct cache file names |
| Knowledge.IsFresh | knowledgebase.py:117-126 | an entry is reused when it is truthy and its numeric `last_saved` is less than 86400 seconds before `now` (definition; its window is stated by `FreshnessWindow`) |
| Knowledge.FreshnessWindow | knowledgebase.py:117-126 | with a numeric `last_saved`, an entry is reused exactly when it is less than 86400 seconds old (exactly one day old is stale) |
| Knowledge.Strip | knowledgebase.py:134-138 | `del kb_data["last_saved"]` with errors ignored: the key is gone, every other key keeps its value, a non-dict is unchanged |
| Knowledge.Stamp | knowledgebase.py:76-81 | the stamped dict has `last_saved` equal to `now` |
| Knowledge.StampKeepsRest | knowledgebase.py:81 | stamping keeps every other key and its value, and the key order, adding `last_saved` last when it was not there |
| Knowledge.SaveSpec | knowledgebase.py:72-90 | a dict is stored stamped with `now`; anything else leaves no entry, since the file is truncated before the stamping fails; other destinations are untouched |
| Knowledge.RetrieveSpec | knowledgebase.py:93-139 | `retrieve_cached_results` on the cache and request log: a fresh entry without a request, otherwise one request whose truthy reply is saved (definition; its properties are the lemmas below) |
| Knowledge.GetDestinationInfoSpec | knowledgebase.py:14-41 | `get_destination_info`: retrieval in cache mode, with a second request and a `None` result after a falsy retrieval; one direct request otherwise (definition) |
| Knowledge.RetrieveFreshHit | knowledgebase.py:98-139 | a fresh cached entry is returned without `last_saved`, with no request and no write |
| Knowledge.RetrieveRefresh | knowledgebase.py:127-139 | a missing or stale entry causes exactly one request; a truthy dict reply is cached stamped with `now` and returned unstamped; a falsy reply leaves the cache as it was and is what is returned |
| Knowledge.RetrieveNeverLastSaved | knowledgebase.py:134-139 | what retrieval returns never has `last_saved` |
| Knowledge.CacheMissYieldsNone | knowledgebase.py:28-37 | in cache mode a falsy retrieval is followed by exactly one more request, and the result is `None` because saving returns nothing |
| Knowledge.LookupTouchesOnlyItsEntry | knowledgebase.py:14-41 | a lookup changes the cache entry of its own destination and no other |
| Knowledge.CacheIgnoresProtocolAndPort | knowledgebase.py:24-31 | the cache is keyed by destination alone: a fresh entry answers every protocol and port the same, with no request |
| Knowledge.SecondLookupIsCacheHit | knowledgebase.py:24-37 | when a stale or missing entry is refreshed by a reply whose data, without `last_saved`, is a truthy dict, a second cache-mode lookup of the same destination at the same time is a cache hit: the first lookup sends the only request, the second sends none, writes nothing and returns the same data; a reply that strips to `{}` (for example `{}` itself or one holding only `last_saved`) makes the second lookup request again |
| Knowledge.KnowledgeBase.constructor | knowledgebase.py:147-149 | a run starts with the given cache directory and an empty request log |
| Knowledge.KnowledgeBase.Fetch | knowledgebase.py:35 | a request gets the next reply of the session and is appended to the request log |
| Knowledge.KnowledgeBase.Save | knowledgebase.py:72-90 | the cache becomes `SaveSpec` of the old cache; the caller's dict is stamped in place |
| Knowledge.KnowledgeBase.Unlink | knowledgebase.py:248-250 | the destination's cache file is removed; a missing file is no error |
| Knowledge.KnowledgeBase.Retrieve | knowledgebase.py:93-139 | result, cache and request log are those of `RetrieveSpec` on the old state |
| Knowledge.KnowledgeBase.GetDestinationInfo | knowledgebase.py:14-41 | result, cache and request log are those of `GetDestinationInfoSpec` on the old state |
| Enrichment.JoinSplit | knowledgebase.py:170-172 | joining the pieces of `split(":")` with `":"` gives the string back |
| Enrichment.SplitPiecesHaveNoColon | knowledgebase.py:170 | no piece of the split contains a colon |
| Enrichment.SplitWithoutColon | knowledgebase.py:170 | a string without a colon splits into itself alone |
| Enrichment.Split | knowledgebase.py:170 | `str.split(":")`: always at least one piece; its meaning is stated by `JoinSplit`, `SplitPiecesHaveNoColon` and `SplitWithoutColon` |
| Enrichment.Join | knowledgebase.py:172 | `":".join(pieces)`, the inverse of `Split` by `JoinSplit` (definition) |
| Enrichment.JoinLast | knowledgebase.py:172 | joining all pieces is joining all but the last, a colon, and the last |
| Enrichment.LastColonUnique | knowledgebase.py:170-172 | a string splits in at most one way into a prefix, a colon and a colon-free suffix |
| Enrichment.LastColonSplit | knowledgebase.py:170-172 | everything before the last colon, a colon and the colon-free rest rebuild the string; without a colon the part before is empty |
| Enrichment.LastColonParts | knowledgebase.py:170-172 | a string written as a prefix, a colon and a colon-free suffix splits into exactly those two |
| Enrichment.ParseDst | knowledgebase.py:166-172 | ICMP keeps `dst` whole without a port; otherwise the host is everything before the last colon and the port the number after it (definition; see the two lemmas below) |
| Enrichment.ParseDstRebuilds | knowledgebase.py:166-172 | for a non-ICMP flow the port is the number after the last colon and host + ":" + port text rebuilds `dst`; a `dst` without a colon gives an empty host |
| Enrichment.Ipv6Example | knowledgebase.py:170-172 | `2001:db8::1:443` splits into host `2001:db8::1` and port 443 |
| Enrichment.FlowRecord | knowledgebase.py:225-242 | the record copies the flow's twelve fields in order and adds the four enrichment fields under their keys |
| Enrichment.Nested | knowledgebase.py:188 | `kb[outer][inner]` succeeds exactly when both levels are dicts holding the keys, and then it is the value found there; `None` always fails |
| Enrichment.FirstEntry | knowledgebase.py:189-195 | the field is `{name: first key, "info": its value}`, or `{name: None, "info": {}}` when there is no first key |
| Enrichment.NamePortField | knowledgebase.py:187-197 | the field is `None` exactly when its path is missing, otherwise the first entry of the value found there |
| Enrichment.Enrich | knowledgebase.py:187-224 | the four fields, each taken from its own path and failing to `None` on its own (definition) |
| Enrichment.EnrichStats | knowledgebase.py:198-202 | the statistics field is `kb["destination_info"]["statistics"]` as found, or `None` when either level is missing |
| Enrichment.EnrichNone | knowledgebase.py:187-224 | a lookup that returned `None` gives `None` in all four fields |
| Enrichment.SkipsLookup | knowledgebase.py:173-182 | a flow is not looked up when its name source is "original" and its host is a private address (definition) |
| Enrichment.FlowStep | knowledgebase.py:165-243 | one flow: a skipped flow gets `{}` four times and is not appended; any other is looked up through `get_destination_info` in cache mode and appended (definition; see `FlowStepSkipRule`) |
| Enrichment.FlowStepSkipRule | knowledgebase.py:173-186 | a flow is skipped exactly when its name source is "original" and its host is private; a skipped flow gets `{}` four times, causes no request and is not appended; any other flow queries its own host |
| Enrichment.Kept | knowledgebase.py:173-186 | the flows of a file that are not skipped, in order, never more than the flows; `RecordsFollowKeptFlows` pairs them with the records |
| Enrichment.RecordsFollowKeptFlows | knowledgebase.py:164-243 | the records of a file correspond one to one, in order, to its non-skipped flows |
| Enrichment.EnrichOneFlow | knowledgebase.py:165-243 | one flow's record (none for a skipped flow), the destination it adds to `cached_dests` and the new cache are those of `FlowStep` |
| Enrichment.EnrichFlows | knowledgebase.py:164-243 | the flow loop of one file as a fold of `FlowStep`; the records, cache and queried set it yields are stated by `RecordsFollowKeptFlows` and `FlowsTouchOnlyQueried` (definition) |
| Enrichment.EnrichFileFlows | knowledgebase.py:164-243 | the records, cache and queried destinations after the flow loop of one file are those of `EnrichFlows` |
| Enrichment.FlowStepTouchesOnlyQueried | knowledgebase.py:183-186 | one flow changes the cache only at the destination it queries |
| Enrichment.FlowsTouchOnlyQueried | knowledgebase.py:164-186 | the queried set only grows, and the cache changes only at queried destinations |
| Enrichment.FilesWrittenInOrder | knowledgebase.py:150-245 | every directory entry is written once, in order: a `.bf` file gets its header and the records of its kept flows, any other file gets `{}` |
| Enrichment.FilesTouchOnlyQueried | knowledgebase.py:149-186 | before cleanup the cache differs from the initial one only at queried destinations |
| Enrichment.EnrichFiles | knowledgebase.py:150-245 | the file loop as a fold over the directory entries; what it writes and the cache it leaves are stated by `FilesWrittenInOrder` and `FilesTouchOnlyQueried` (definition) |
| Enrichment.RemoveCached | knowledgebase.py:246-250 | exactly the cache entries of the given destinations are removed, with no request |
| Enrichment.EnrichDirectory | knowledgebase.py:142-250 | what is written and the requests sent are those of `EnrichFiles` on the initial state; the final cache is the initial cache without every queried destination |
| Interpret.RequestId | interpret.py:70-80 | the request id is the `request_id` of a dict body whatever the status, and `None` otherwise |
| Interpret.VerdictOf | interpret.py:93-111 | non-200, an unparsable body, a missing `status`, "Failed" and "Complete" without a link fail; "Complete" with a `download_link` brings that link; any other status of a 200 dict waits |
| Interpret.InterpretSpec | interpret.py:54-112 | no truthy request id: `None` without polling; a non-200 first status: `None`; otherwise the polling loop from the second reply (definition; see the lemmas below) |
| Interpret.Poll | interpret.py:90-111 | the loop ends after a reply it has received, or is still polling when the replies run out |
| Interpret.InterpretUrl | interpret.py:54-112 | the loop's outcome is `InterpretSpec`; the time slept is `TimeDelaySeconds` (10 seconds) for each status request after the first |
| Interpret.NoRequestIdNoPolling | interpret.py:81 | without a truthy request id no status request is made and `None` is returned |
| Interpret.RequestIdDespiteFailedSubmit | interpret.py:70-81 | a request id is used even when the submit status is not 200 |
| Interpret.PollDependsOnSuffix | interpret.py:90-111 | the loop's outcome depends only on the verdicts of the replies from the current one on |
| Interpret.FirstStatusBodyIgnored | interpret.py:85-88 | the body of the first status reply is never inspected |
| Interpret.FirstStatusNotOk | interpret.py:85-87 | a first status request that is not 200 ends with `None` after one request |
| Interpret.CompleteOnFirstCheck | interpret.py:103-107 | any 200 "Complete" reply with a truthy `download_link` on the first loop check returns that link after two status requests |
| Interpret.NonOkEndsLoop | interpret.py:93-95 | a non-200 reply in the loop, 403 included, ends it at once |
| Interpret.CompleteWithEmptyLinkKeepsPolling | interpret.py:90-107 | any 200 "Complete" reply with a falsy `download_link` does not end the loop: the link becomes the results and the next reply is awaited |
| Interpret.EmptyLinkThenFailed | interpret.py:90-112 | "Complete" with an empty link followed by "Failed" returns the empty link, not `None` |
| Interpret.WaitingToTheEnd | interpret.py:90-108 | replies that each leave the loop waiting keep it polling until they run out |
| Interpret.NoAttemptCap | interpret.py:90-111 | there is no attempt limit: in-progress replies keep the loop polling for as long as they come |
| Interpret.HandleElement | interpret.py:30-48 | one element of the results: halt, save a screenshot, print the fields, or skip (definition; stated by `HandleElementMeaning`) |
| Interpret.HandleElementMeaning | interpret.py:30-48 | an element stops processing exactly when it is not a dict, has no `type`, or is a screenshot with a payload whose `message` is missing, whose payload does not decode or whose file cannot be written; otherwise a screenshot with a payload is saved to `<timestamp>_screenshot.png`, another recognised type with a payload prints the element, and a missing or falsy payload or an unrecognised type is skipped |
| Interpret.HandleFrom | interpret.py:29-51 | the element loop from the i-th element on; its ending and order are stated by `HandleFromEnds` and `HandleFromInOrder` (definition) |
| Interpret.HandleFromEnds | interpret.py:29-48 | processing handles every element, or stops at the first element that halts, after one action per earlier element |
| Interpret.HandleFromInOrder | interpret.py:29-48 | the k-th action is the one the k-th element calls for |
| Interpret.ResultSpec | interpret.py:15-51 | no document: nothing; no `results`: nothing; `results` not iterable: nothing; otherwise the elements in order until one halts (definition) |
| Interpret.GetInterpretResult | interpret.py:15-51 | the actions and the ending are those of `ResultSpec` on the fetched document |
| Interpret.NoResultsNoAction | interpret.py:26-28 | a document without `results` leads to no action |
| Demo.Classify | demo.py:72-85 | the elif chain: directories are kept, special files ignored, conn logs before dns logs before capture files (definition) |
| Demo.Suffix | demo.py:82 | `Path.suffix`: from the last dot on when that dot is neither the first nor the last character, and empty otherwise |
| Demo.Stem | demo.py:75 | `Path.stem`: the stem followed by the suffix is the name |
| Demo.LogStem | demo.py:74-81 | a conn log's stem is its name without ".log" and ends in "conn"; a dns log's ends in "dns" |
| Demo.ConnDnsStemsDisjoint | demo.py:74-81 | no stem ends both in "conn" and in "dns" |
| Demo.PathsOfMembers | demo.py:72-85 | a path is collected for a class exactly when an entry of that class has it |
| Demo.ZeekStep | demo.py:73-81 | a conn or dns log is filed under its stem on its side; any other entry leaves `zeek_files` as it was (definition) |
| Demo.ZeekFiles | demo.py:72-81 | the first loop of `collect_all_valid_at_level` as a fold of `ZeekStep` over the entries; its records are stated by `ZeekShape`, `ZeekNeverBoth` and `ZeekCollects` (definition) |
| Demo.ZeekShape | demo.py:74-81 | every `zeek_files` record holds at least one log, named after its stem |
| Demo.ZeekNeverBoth | demo.py:74-81 | no `zeek_files` record holds both a conn log and a dns log |
| Demo.ZeekCollects | demo.py:86-90 | the conn set (dns set) is exactly the paths of the conn (dns) logs of the directory |
| Demo.FileLog | demo.py:74-81 | creating the stem's record when it is new and then setting one side files the log under its stem on that side |
| Demo.CollectSides | demo.py:86-90 | the two sets are exactly the conn paths and the dns paths the records hold |
| Demo.CollectAllValidAtLevel | demo.py:63-91 | capture files and subdirectories come back in directory order; conn and dns logs come back as the sets of their paths |
| Demo.DictOfDistinct | demo.py:20 | `dict(pairs)` with distinct keys holds exactly those pairs, in order |
| Demo.ZipDistinct | demo.py:20 | with distinct keys, `dict(zip(...))` is the zip itself: the i-th key with the i-th value, up to the shorter sequence |
| Demo.ConversionsSpec | demo.py:13-49 | paired Zeek conversions when there are dns logs, conn-only conversions otherwise, then one conversion per capture file (definition; see the lemmas below) |
| Demo.ConvertAndLabelFiles | demo.py:13-49 | the calls made are `ConversionsSpec` of the inputs |
| Demo.PairedConversions | demo.py:19-30 | with dns logs, the i-th conn log is converted with the i-th dns log, for exactly min(conn, dns) Zeek conversions |
| Demo.LeftoverConnLogsSkipped | demo.py:19-30 | conn logs beyond the number of dns logs are never converted |
| Demo.ConnOnlyConversions | demo.py:31-39 | without dns logs each conn log is converted once, without a dns file |
| Demo.PcapsOnceAndShare | demo.py:17-49 | each capture file is converted once, after the Zeek logs; every call shares statistics exactly when uploading is on and is timed exactly when timing is on |
| Demo.ConversionsDrawnFrom | demo.py:13-49 | every conversion names a given conn log, dns log or capture file |
| Demo.ProcessAllInputs | demo.py:54-60 | the actions are the conversions of `ConversionsSpec` for the level's capture files and its conn and dns logs, in some iteration order of their sets, followed by one enrichment of the output directory; subdirectories are never converted |
| Demo.Dispatch | demo.py:111-127 | `--e2e` wins (non-directory: a message); then `--url`; then `--interpret`; help exactly when none is given |
| Demo.ExitCode | demo.py:116-121 | when no exception escapes, the exit status is 1 exactly after printing help |
| Demo.UrlIgnoresInterpret | demo.py:118-127 | with `--url`, the interpret flags do not matter |
| Demo.InterpretAndFetch | demo.py:122-124 | the interpret run's result is fetched once it is returned; nothing happens while it is pending |
| Demo.NoRequestIdFetchesNone | demo.py:122-124 | without a request id the `None` result is fetched, which fails and leads to no action |

## Left out

- HTTP: `requests` calls are replies supplied as inputs (`answer` for the knowledge base, a sequence for the interpretation status). URLs, headers, payloads and the API key are not modelled.
- Pickle, `open`, `mkdir` and file contents on disk: the cache directory is a map from destination to entry, and a file that cannot be loaded is a missing key. An unpickling error is handled the same way as any other load failure, as in the source.
- Clocks: every read of the current time during one lookup or run is the same integer `now`. `last_saved` is a whole number of seconds rather than a float.
- `time.sleep` and `time.perf_counter`: the time slept is summed rather than spent, and a conversion records only whether a start time was passed.
- `ipaddress.ip_address(...).is_private` is the supplied function `ipKind`, which may also report an invalid address.
- Enrichment.DigitsValue: `int()` is modelled on plain decimal digit strings only. Signs, surrounding whitespace and underscores are outside the model.
- Enrichment.EnrichDirectory: paths that crash the source are excluded by its precondition, because the source does not handle them. These are a `.bf` file that is not a non-empty flow-record dict, a port that `int()` rejects, and a flow missing any of the twelve fields. A skipped flow in the source reads only `protocolInformation`, `dst` and `destinationNameSource`, so files with such incomplete skipped flows are outside the model too.
- Enrichment.EnrichDirectory: a subdirectory inside the output directory, which the source fails to open for writing, is not modelled.
- Enrichment.EnrichDirectory: `float(data["trafficDate"])` at knowledgebase.py:158 raises on a non-numeric `trafficDate` (`null`, `"abc"`). The source then aborts: it writes neither that file nor any later one, and it removes no cache entries. The model accepts such a file and writes every file, so this abort is outside the model.
- Uncaught `requests` exceptions: a connection error or time-out at interpret.py:70, :85 or :92, or at knowledgebase.py:35, :39 or :128, is not inside a `try` and aborts the whole program with exit status 1. A `Response` stands only for a reply that arrived, so these aborts are outside the model.
- Base64 decoding and PNG writing: whether the payload decodes and whether the file can be written are supplied (`Host.decodes`, `Host.writes`); the bytes themselves are not modelled, nor is any `print`.
- The converter library and `bayse_summary` are external. Conversions and the enrichment step are recorded as calls.
- Demo.ProcessAllInputs: the output directory's contents depend on the external converter, so enrichment is recorded as a step rather than run through `EnrichDirectory`.
- Demo.Upper: only ASCII letters are upper-cased. Python's Unicode case mapping is not modelled.
- Demo.Child: `Path.absolute()` is modelled as joining the directory and the entry name, so resolving a relative directory against the working directory is not modelled.
- The iteration order of Python sets: the conn and dns sets are enumerated in an arbitrary order chosen by the model.
- `argparse` parsing, help text and `sys.exit`: dispatch starts from the parsed flags, and the exit status is a function of the chosen command. The `--outputdirectory` default `/tmp/bayseflows` belongs to parsing and is part of the given flags.
- Demo.ExitCode: covers only runs in which no exception escapes, since an uncaught exception also exits with status 1.
- `config.py` and the secret module hold only constants and credentials.
- Interpret.InterpretUrl: the loop has no attempt limit. Over a finite sequence of replies, running out is reported as `StillPolling` rather than as waiting forever.
- Knowledge.CacheFileNameInjective: the cache map assumes that distinct file names are distinct files. Case-insensitive file systems (Windows, default macOS volumes) and destinations holding the delimiter or `..` can make two names one file; this is not modelled.
- JSON numbers are integers: floats in replies and flow files (`relativeStart`, `duration`, a float `last_saved`) are outside the model; the enricher copies such fields unchanged, so only their representation is lost.
- The docstring of `retrieve_cached_results` speaks of two weeks; the code uses one day (86400 seconds), and the model follows the code.

/** The interpretation client (interpret.py): submitting a URL, polling its status until it is
    complete or failed, and classifying the elements of the result document. The status
    endpoint's replies are a finite sequence; when it runs out the request is still pending. */
module Interpret {
  import opened Json
  import opened Http

  const ValidResultTypes: seq<string> :=
    ["interpretation", "screenshot", "knowledge", "statistics", "partial_knowledge", "all_destination_details"]
  const ResultsWithBinaryData: seq<string> := ["screenshot"]
  /** Seconds slept before every status request of the polling loop. */
  const TimeDelaySeconds: nat := 10

  // ---------------------------------------------------------------------------------------
  // Submission and polling

  /** The `request_id` of the submit reply, whatever its HTTP status; `None` unless the body
      is a dict holding the key. */
  function RequestId(submit: Response): (id: Json)
    ensures id != JNull ==> submit.body.Some? && Get(submit.body.value, "request_id") == Some(id)
    ensures submit.body.Some? && Get(submit.body.value, "request_id").Some? ==>
              id == Get(submit.body.value, "request_id").value
  {
    if submit.body.Some? then
      match Get(submit.body.value, "request_id")
      case Some(id) => id
      case None => JNull
    else JNull
  }

  /** A 200 reply whose dict says "Complete" and holds a `download_link`. */
  predicate CompleteReply(r: Response)
  {
    && r.status == 200 && r.body.Some? && Get(r.body.value, "status") == Some(JStr("Complete"))
    && Get(r.body.value, "download_link").Some?
  }

  /** A reply that keeps the request waiting: 200, a dict whose status is neither terminal. */
  predicate InProgress(r: Response)
  {
    && r.status == 200 && r.body.Some? && r.body.value.JObj?
    && Get(r.body.value, "status").Some?
    && Get(r.body.value, "status").value != JStr("Failed")
    && Get(r.body.value, "status").value != JStr("Complete")
  }

  /** What one status reply of the loop tells it. */
  datatype Verdict = Fails | Waits | Completes(link: Json)

  /** One loop iteration's reply: a non-200 status, an unparsable body, a body without
      `"status"` and `"Failed"` all fail; `"Complete"` brings `download_link` (a missing link
      raises, which also fails); any other status waits. */
  function VerdictOf(r: Response): (v: Verdict)
    ensures r.status != 200 ==> v == Fails
    ensures v != Fails ==> r.status == 200 && r.body.Some? && HasKey(r.body.value, "status")
    ensures v.Completes? ==>
              && Get(r.body.value, "status") == Some(JStr("Complete"))
              && Get(r.body.value, "download_link") == Some(v.link)
    ensures v == Waits ==> Get(r.body.value, "status") != Some(JStr("Complete"))
    ensures r.body.Some? && Get(r.body.value, "status") == Some(JStr("Failed")) ==> v == Fails
    ensures CompleteReply(r) ==> v == Completes(Get(r.body.value, "download_link").value)
    ensures (&& r.status == 200 && r.body.Some? && Get(r.body.value, "status") == Some(JStr("Complete"))
             && Get(r.body.value, "download_link").None?) ==> v == Fails
    ensures InProgress(r) ==> v == Waits
  {
    if r.status != 200 then Fails
    else
      match r.body
      case None => Fails
      case Some(data) =>
        match Get(data, "status")
        case None => Fails
        case Some(status) =>
          if status == JStr("Failed") then Fails
          else if status == JStr("Complete") then
            match Get(data, "download_link")
            case Some(link) => Completes(link)
            case None => Fails
          else Waits
  }

  /** The verdict of every reply, in order. */
  function Verdicts(replies: seq<Response>): (vs: seq<Verdict>)
    ensures |vs| == |replies|
    ensures forall i :: 0 <= i < |replies| ==> vs[i] == VerdictOf(replies[i])
  {
    seq(|replies|, i requires 0 <= i < |replies| => VerdictOf(replies[i]))
  }

  /** How `interpret_url` ends: it returns a value after some status requests, or it is still
      polling when the replies run out. */
  datatype Interpretation = Returned(value: Json, statusRequests: nat) | StillPolling(statusRequests: nat)

  /** The polling loop from status reply `i` on, with `results` as the loop found it: a failure
      returns `results` as they are, "Complete" replaces them by its link, and the loop goes on
      while they are falsy. */
  function Poll(vs: seq<Verdict>, i: nat, results: Json): (r: Interpretation)
    requires 1 <= i <= |vs|
    ensures i < r.statusRequests <= |vs| || r == StillPolling(i) == StillPolling(|vs|)
    ensures r.StillPolling? ==> r.statusRequests == |vs|
    decreases |vs| - i
  {
    if i == |vs| then StillPolling(i)
    else
      var next := if vs[i].Completes? then vs[i].link else results;
      if vs[i] == Fails || Truthy(next) then Returned(next, i + 1)
      else Poll(vs, i + 1, next)
  }

  /** `interpret_url`: `replies[0]` answers the immediate status request, the rest answer the
      loop's requests in order. */
  function InterpretSpec(submit: Response, replies: seq<Response>): Interpretation
  {
    if !Truthy(RequestId(submit)) then Returned(JNull, 0)
    else if replies == [] then StillPolling(0)
    else if replies[0].status != 200 then Returned(JNull, 1)
    else Poll(Verdicts(replies), 1, JNull)
  }

  /** `interpret_url`; `slept` is the total time spent in `time.sleep`, in seconds. */
  method InterpretUrl(submit: Response, replies: seq<Response>) returns (outcome: Interpretation, slept: nat)
    ensures outcome == InterpretSpec(submit, replies)
    ensures outcome.statusRequests <= |replies|
    ensures slept == TimeDelaySeconds * (if outcome.statusRequests == 0 then 0 else outcome.statusRequests - 1)
  {
    var requestId := RequestId(submit);
    if !Truthy(requestId) {
      return Returned(JNull, 0), 0;
    }
    if |replies| == 0 {
      return StillPolling(0), 0;
    }
    if replies[0].status != 200 {
      return Returned(JNull, 1), 0;
    }
    ghost var vs := Verdicts(replies);
    var results := JNull;
    var failed := false;
    var i := 1;
    var sleeps := 0;
    while !Truthy(results) && !failed
      invariant 1 <= i <= |replies|
      invariant sleeps == i - 1
      invariant !failed && !Truthy(results) ==> Poll(vs, i, results) == InterpretSpec(submit, replies)
      invariant failed || Truthy(results) ==> Returned(results, i) == InterpretSpec(submit, replies)
      decreases |replies| - i
    {
      if i == |replies| {
        return StillPolling(i), TimeDelaySeconds * sleeps;
      }
      sleeps := sleeps + 1;
      match VerdictOf(replies[i]) {
        case Fails => failed := true;
        case Completes(link) => results := link;
        case Waits =>
      }
      i := i + 1;
    }
    outcome := Returned(results, i);
    slept := TimeDelaySeconds * sleeps;
  }

  /** Without a truthy `request_id` no status request is made and `None` is returned. */
  lemma NoRequestIdNoPolling(submit: Response, replies: seq<Response>)
    requires !Truthy(RequestId(submit))
    ensures InterpretSpec(submit, replies) == Returned(JNull, 0)
  {
  }

  /** A `request_id` is used even when the submit reply's status is not 200. */
  lemma RequestIdDespiteFailedSubmit(status: int, id: string, replies: seq<Response>)
    requires id != "" && |replies| > 0
    ensures RequestId(Response(status, Some(JObj([("request_id", JStr(id))])))) == JStr(id)
    ensures InterpretSpec(Response(status, Some(JObj([("request_id", JStr(id))]))), replies).statusRequests >= 1
  {
  }

  /** The loop's outcome depends only on the verdicts from position `i` on. */
  lemma {:induction false} PollDependsOnSuffix(vs: seq<Verdict>, vs': seq<Verdict>, i: nat, results: Json)
    requires 1 <= i <= |vs| == |vs'|
    requires vs[i..] == vs'[i..]
    ensures Poll(vs, i, results) == Poll(vs', i, results)
    decreases |vs| - i
  {
    if i < |vs| {
      assert vs[i] == vs[i..][0] == vs'[i];
      assert vs[i + 1..] == vs[i..][1..];
      assert vs'[i + 1..] == vs'[i..][1..];
      var next := if vs[i].Completes? then vs[i].link else results;
      PollDependsOnSuffix(vs, vs', i + 1, next);
    }
  }

  /** The body of the first status reply is never inspected; only its status matters. */
  lemma FirstStatusBodyIgnored(submit: Response, replies: seq<Response>, body: Option<Json>)
    requires |replies| > 0
    ensures InterpretSpec(submit, replies)
         == InterpretSpec(submit, [Response(replies[0].status, body)] + replies[1..])
  {
    var replies' := [Response(replies[0].status, body)] + replies[1..];
    if Truthy(RequestId(submit)) && replies[0].status == 200 {
      var vs, vs' := Verdicts(replies), Verdicts(replies');
      assert vs[1..] == vs'[1..];
      PollDependsOnSuffix(vs, vs', 1, JNull);
    }
  }

  /** A first status request that is not 200 ends everything with `None`, without sleeping. */
  lemma FirstStatusNotOk(submit: Response, replies: seq<Response>)
    requires Truthy(RequestId(submit)) && |replies| > 0 && replies[0].status != 200
    ensures InterpretSpec(submit, replies) == Returned(JNull, 1)
  {
  }

  /** "Complete" with a truthy link on the first loop check returns that link unchanged. */
  lemma CompleteOnFirstCheck(submit: Response, replies: seq<Response>)
    requires Truthy(RequestId(submit)) && |replies| >= 2 && replies[0].status == 200
    requires CompleteReply(replies[1]) && Truthy(Get(replies[1].body.value, "download_link").value)
    ensures InterpretSpec(submit, replies) == Returned(Get(replies[1].body.value, "download_link").value, 2)
  {
  }

  /** A 403 (or any non-200) reply in the loop ends it at once, with no further request. */
  lemma NonOkEndsLoop(replies: seq<Response>, i: nat, results: Json)
    requires 1 <= i < |replies| && replies[i].status != 200
    ensures Poll(Verdicts(replies), i, results) == Returned(results, i + 1)
  {
  }

  /** "Complete" with a falsy link does not end the loop: the next reply is awaited. */
  lemma CompleteWithEmptyLinkKeepsPolling(replies: seq<Response>, i: nat, results: Json)
    requires 1 <= i < |replies| && CompleteReply(replies[i])
    requires !Truthy(Get(replies[i].body.value, "download_link").value)
    ensures Poll(Verdicts(replies), i, results)
         == if i + 1 == |replies| then StillPolling(i + 1)
            else Poll(Verdicts(replies), i + 1, Get(replies[i].body.value, "download_link").value)
  {
  }

  /** So "Complete" with an empty link followed by "Failed" returns the empty link, not `None`. */
  lemma EmptyLinkThenFailed(submit: Response, ok: Response)
    requires Truthy(RequestId(submit)) && ok.status == 200
    ensures InterpretSpec(submit, [ok,
              Response(200, Some(JObj([("status", JStr("Complete")), ("download_link", JStr(""))]))),
              Response(200, Some(JObj([("status", JStr("Failed"))])))])
         == Returned(JStr(""), 3)
  {
    var complete := JObj([("status", JStr("Complete")), ("download_link", JStr(""))]);
    var failed := JObj([("status", JStr("Failed"))]);
    assert Get(complete, "status") == Some(JStr("Complete"));
    assert Get(complete, "download_link") == Some(JStr(""));
    assert Get(failed, "status") == Some(JStr("Failed"));
    assert VerdictOf(Response(200, Some(complete))) == Completes(JStr(""));
    assert VerdictOf(Response(200, Some(failed))) == Fails;
    var replies := [ok, Response(200, Some(complete)), Response(200, Some(failed))];
    var vs := Verdicts(replies);
    assert vs[1] == Completes(JStr("")) && vs[2] == Fails;
    assert Poll(vs, 1, JNull) == Poll(vs, 2, JStr(""));
  }

  /** Verdicts that each leave the loop waiting keep it polling to the end. */
  lemma {:induction false} WaitingToTheEnd(vs: seq<Verdict>, i: nat)
    requires 1 <= i <= |vs|
    requires forall j :: i <= j < |vs| ==> vs[j] == Waits
    ensures Poll(vs, i, JNull) == StillPolling(|vs|)
    decreases |vs| - i
  {
    if i < |vs| {
      WaitingToTheEnd(vs, i + 1);
    }
  }

  /** There is no attempt cap: however many in-progress replies arrive, the loop keeps asking. */
  lemma NoAttemptCap(replies: seq<Response>, i: nat)
    requires 1 <= i <= |replies|
    requires forall j :: i <= j < |replies| ==> InProgress(replies[j])
    ensures Poll(Verdicts(replies), i, JNull) == StillPolling(|replies|)
  {
    WaitingToTheEnd(Verdicts(replies), i);
  }

  // ---------------------------------------------------------------------------------------
  // The result document

  /** What is done with one element of `results`. */
  datatype Action = SaveScreenshot(payload: Json, fileName: string) | PrintFields(element: Json) | Skip

  /** Why processing of the document ended. */
  datatype Ending =
    | NoDocument          // the GET raised or the body is not JSON
    | NoResults           // no `"results"` key (or a document that is not a dict)
    | NotIterable         // `results` cannot be iterated
    | StoppedAt(index: nat)  // the element at `index` stopped processing
    | AllHandled

  datatype Report = Report(actions: seq<Action>, ending: Ending)

  datatype ElementResult = Act(action: Action) | Halt

  /** What the machine running the client supplies while the result is processed:
      `clock(i)` is the timestamp taken for element `i`, `decodes(p)` says whether
      `base64.b64decode` accepts the payload `p`, and `writes(i)` whether the file for element
      `i` can be opened and written. */
  datatype Host = Host(clock: nat -> string, decodes: Json -> bool, writes: nat -> bool)

  /** `<timestamp>_screenshot.png`. */
  function ScreenshotFileName(stamp: string): string
  {
    stamp + "_screenshot.png"
  }

  /** The elements a Python `for` loop sees: a list's items, a dict's keys, a string's
      characters; anything else cannot be iterated. */
  function Elements(results: Json): Option<seq<Json>>
  {
    match results
    case JArr(items) => Some(items)
    case JObj(fields) => Some(seq(|fields|, i requires 0 <= i < |fields| => JStr(fields[i].0)))
    case JStr(s) => Some(seq(|s|, i requires 0 <= i < |s| => JStr([s[i]])))
    case _ => None
  }

  /** The element names one of the valid result types. */
  predicate RecognisedType(e: Json)
  {
    Get(e, "type").Some? && Get(e, "type").value.JStr? && Get(e, "type").value.s in ValidResultTypes
  }

  /** A screenshot with a truthy payload. */
  predicate ScreenshotWithPayload(e: Json)
  {
    && Get(e, "type") == Some(JStr("screenshot")) && Get(e, "screenshot").Some?
    && Truthy(Get(e, "screenshot").value)
  }

  /** A screenshot with a truthy payload but no `"message"` to print. */
  predicate MissingMessage(e: Json)
  {
    ScreenshotWithPayload(e) && !HasKey(e, "message")
  }

  /** A screenshot with a truthy payload and a message whose payload does not decode or whose
      file cannot be written. */
  predicate SaveFails(e: Json, i: nat, host: Host)
  {
    && ScreenshotWithPayload(e) && HasKey(e, "message")
    && !(host.decodes(Get(e, "screenshot").value) && host.writes(i))
  }

  /** A recognised type other than a screenshot with a truthy payload under its own name. */
  predicate PrintableType(e: Json)
  {
    && RecognisedType(e) && Get(e, "type").value.s !in ResultsWithBinaryData
    && Get(e, Get(e, "type").value.s).Some? && Truthy(Get(e, Get(e, "type").value.s).value)
  }

  /** A recognised type whose payload is missing or falsy. */
  predicate NoPayload(e: Json)
  {
    && RecognisedType(e)
    && (Get(e, Get(e, "type").value.s).None? || !Truthy(Get(e, Get(e, "type").value.s).value))
  }

  /** Element `i`: a non-dict, a missing `"type"`, a screenshot without `"message"`, a payload
      that does not decode and a file that cannot be written stop processing; an unrecognised
      type or a missing or falsy payload is skipped; a screenshot is saved and every other
      recognised type prints its fields. */
  function HandleElement(e: Json, i: nat, host: Host): ElementResult
  {
    if !e.JObj? then Halt
    else
      match Get(e, "type")
      case None => Halt
      case Some(t) =>
        if t.JStr? && t.s in ValidResultTypes then
          var payload := Get(e, t.s);
          if payload.Some? && Truthy(payload.value) then
            if t.s in ResultsWithBinaryData then
              if !HasKey(e, "message") then Halt
              else if !host.decodes(payload.value) then Halt
              else if !host.writes(i) then Halt
              else Act(SaveScreenshot(payload.value, ScreenshotFileName(host.clock(i))))
            else Act(PrintFields(e))
          else Act(Skip)
        else Act(Skip)
  }

  /** What each element leads to: halting exactly for a non-dict, a missing `"type"`, a
      screenshot without `"message"` or one that cannot be decoded and written; otherwise a
      screenshot with a payload is saved under the timestamped name, another recognised type
      with a payload prints its fields, and a missing or falsy payload or an unrecognised type
      is skipped. */
  lemma HandleElementMeaning(e: Json, i: nat, host: Host, r: ElementResult)
    requires r == HandleElement(e, i, host)
    ensures r == Halt <==> (!e.JObj? || !HasKey(e, "type") || MissingMessage(e) || SaveFails(e, i, host))
    ensures e.JObj? && ScreenshotWithPayload(e) && !MissingMessage(e) && !SaveFails(e, i, host) ==>
              r == Act(SaveScreenshot(Get(e, "screenshot").value, ScreenshotFileName(host.clock(i))))
    ensures e.JObj? && PrintableType(e) ==> r == Act(PrintFields(e))
    ensures e.JObj? && NoPayload(e) ==> r == Act(Skip)
    ensures (e.JObj? && HasKey(e, "type") && !RecognisedType(e)) ==> r == Act(Skip)
    ensures r.Act? && r.action.SaveScreenshot? ==> ScreenshotWithPayload(e)
    ensures r.Act? && r.action.PrintFields? ==> PrintableType(e)
  {
  }

  /** What each element calls for. */
  function Outcomes(elems: seq<Json>, host: Host): (rs: seq<ElementResult>)
    ensures |rs| == |elems|
    ensures forall i :: 0 <= i < |elems| ==> rs[i] == HandleElement(elems[i], i, host)
  {
    seq(|elems|, i requires 0 <= i < |elems| => HandleElement(elems[i], i, host))
  }

  /** The loop from element `i` on, given what each element calls for. */
  function HandleFrom(rs: seq<ElementResult>, i: nat): Report
    requires i <= |rs|
    decreases |rs| - i
  {
    if i == |rs| then Report([], AllHandled)
    else
      match rs[i]
      case Halt => Report([], StoppedAt(i))
      case Act(a) =>
        var rest := HandleFrom(rs, i + 1);
        Report([a] + rest.actions, rest.ending)
  }

  /** `get_interpret_result` on the fetched document (`None` when fetching or parsing failed). */
  function ResultSpec(document: Option<Json>, host: Host): Report
  {
    match document
    case None => Report([], NoDocument)
    case Some(d) =>
      match Get(d, "results")
      case None => Report([], NoResults)
      case Some(results) =>
        match Elements(results)
        case None => Report([], NotIterable)
        case Some(elems) => HandleFrom(Outcomes(elems, host), 0)
  }

  /** A report with `done` handled before it. */
  function Prefixed(done: seq<Action>, r: Report): Report
  {
    Report(done + r.actions, r.ending)
  }

  lemma PrefixedStep(done: seq<Action>, a: Action, r: Report)
    ensures Prefixed(done, Report([a] + r.actions, r.ending)) == Prefixed(done + [a], r)
  {
    assert done + ([a] + r.actions) == (done + [a]) + r.actions;
  }

  /** `get_interpret_result`. */
  method GetInterpretResult(document: Option<Json>, host: Host) returns (actions: seq<Action>, ending: Ending)
    ensures Report(actions, ending) == ResultSpec(document, host)
  {
    actions := [];
    if document.None? {
      return [], NoDocument;
    }
    var results := Get(document.value, "results");
    if results.None? {
      return [], NoResults;
    }
    var elements := Elements(results.value);
    if elements.None? {
      return [], NotIterable;
    }
    var elems := elements.value;
    ghost var rs := Outcomes(elems, host);
    for i := 0 to |elems|
      invariant HandleFrom(rs, 0) == Prefixed(actions, HandleFrom(rs, i))
    {
      var r := HandleElement(elems[i], i, host);
      if r.Halt? {
        return actions, StoppedAt(i);
      }
      PrefixedStep(actions, r.action, HandleFrom(rs, i + 1));
      actions := actions + [r.action];
    }
    ending := AllHandled;
  }

  /** Processing either handles every element from `i` on, one action each, or stops at an
      element that halts, after one action for each element before it. */
  lemma {:induction false} HandleFromEnds(rs: seq<ElementResult>, i: nat)
    requires i <= |rs|
    ensures HandleFrom(rs, i).ending == AllHandled ==> |HandleFrom(rs, i).actions| == |rs| - i
    ensures HandleFrom(rs, i).ending.StoppedAt? ==>
              var k := HandleFrom(rs, i).ending.index;
              i <= k < |rs| && |HandleFrom(rs, i).actions| == k - i && rs[k] == Halt
    ensures HandleFrom(rs, i).ending == AllHandled || HandleFrom(rs, i).ending.StoppedAt?
    decreases |rs| - i
  {
    if i < |rs| && rs[i].Act? {
      HandleFromEnds(rs, i + 1);
    }
  }

  /** Each action is the one its element calls for, in the order of the elements. */
  lemma {:induction false} HandleFromInOrder(rs: seq<ElementResult>, i: nat, k: nat)
    requires i <= |rs| && k < |HandleFrom(rs, i).actions|
    ensures i + k < |rs|
    ensures rs[i + k] == Act(HandleFrom(rs, i).actions[k])
    decreases |rs| - i
  {
    if k > 0 {
      HandleFromInOrder(rs, i + 1, k - 1);
    }
  }

  /** A document without `"results"` leads to no action at all. */
  lemma NoResultsNoAction(d: Json, host: Host)
    requires Get(d, "results").None?
    ensures ResultSpec(Some(d), host) == Report([], NoResults)
  {
  }
}

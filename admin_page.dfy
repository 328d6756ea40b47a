/**
 * src/app/admin/page.tsx: the admin console. One form registers a passage
 * (text, source, comma-separated CC labels); a list shows the pending
 * requests, each of which can be marked complete. Every handler is one
 * atomic step from its pre-state and the server's answer.
 */
module AdminPage {
  import opened Wrappers
  import opened JsStrings
  import opened Json
  import opened ApiClient

  const PassagesPath: string := "/v1/passages"
  const RequestsPath: string := "/v1/requests"

  const EmptyTextMessage: string := "지문 본문을 입력해주세요."
  const CreatedMessage: string := "지문이 등록되었습니다."
  const SubmitFailedMessage: string := "지문 등록 중 오류가 발생했습니다."
  const ListFailedMessage: string := "요청 목록을 불러올 수 없습니다."
  const CompleteFailedMessage: string := "요청 상태를 변경하지 못했습니다."

  /** How many characters of a request's text the list shows. */
  const PreviewLength: nat := 200
  const Ellipsis: string := "…"

  // ---------------------------------------------------------------------------
  // CC labels.
  // ---------------------------------------------------------------------------

  /** `.map((item) => item.trim())`. */
  function TrimEach(parts: seq<string>): (r: seq<string>)
    ensures |r| == |parts|
    ensures forall i :: 0 <= i < |r| ==> r[i] == Trim(parts[i])
  {
    seq(|parts|, i requires 0 <= i < |parts| => Trim(parts[i]))
  }

  /** `.filter(Boolean)` on strings: the non-empty ones, in order. */
  function DropEmpty(xs: seq<string>): (r: seq<string>)
    ensures |r| <= |xs|
    ensures forall i :: 0 <= i < |r| ==> r[i] != ""
    ensures forall x :: x in r <==> x in xs && x != ""
  {
    if xs == [] then []
    else (if xs[0] == "" then [] else [xs[0]]) + DropEmpty(xs[1..])
  }

  /** Every non-empty string is kept as many times as it occurs; only `""` goes. */
  lemma {:induction false} DropEmptyCounts(xs: seq<string>)
    ensures multiset(DropEmpty(xs)) == multiset(xs)["" := 0]
  {
    if xs != [] {
      DropEmptyCounts(xs[1..]);
      assert xs == [xs[0]] + xs[1..];
    }
  }

  /** `a` is `b` with some elements left out and the rest in their order. */
  predicate IsSubsequence(a: seq<string>, b: seq<string>)
    decreases |b|
  {
    if a == [] then true
    else if b == [] then false
    else if a[0] == b[0] then IsSubsequence(a[1..], b[1..])
    else IsSubsequence(a, b[1..])
  }

  /** `ccLabels.split(",").map(trim).filter(Boolean)`. */
  function ParseCcLabels(ccLabels: string): (labels: seq<string>)
    ensures |labels| <= Count(ccLabels, ',') + 1
  {
    DropEmpty(TrimEach(Split(ccLabels, ',')))
  }

  /** Every label is non-empty, has no white space at either end and holds no comma. */
  lemma CcLabelsWellFormed(ccLabels: string)
    ensures var labels := ParseCcLabels(ccLabels);
      forall i :: 0 <= i < |labels| ==> labels[i] != "" && IsTrimmed(labels[i]) && ',' !in labels[i]
  {
    var parts := Split(ccLabels, ',');
    var trimmed := TrimEach(parts);
    forall j | 0 <= j < |parts| ensures IsTrimmed(trimmed[j]) && ',' !in trimmed[j] {
      TrimSpec(parts[j]);
      TrimInfix(parts[j], ',');
    }
    assert forall x :: x in trimmed ==> IsTrimmed(x) && ',' !in x;
  }

  /** Dropping empty strings keeps the others in their order. */
  lemma {:induction false} DropEmptyIsSubsequence(xs: seq<string>)
    ensures IsSubsequence(DropEmpty(xs), xs)
  {
    if xs != [] {
      var rest := DropEmpty(xs[1..]);
      DropEmptyIsSubsequence(xs[1..]);
      if xs[0] == "" {
        assert DropEmpty(xs) == rest;
        assert rest == [] || rest[0] != xs[0];
      } else {
        assert DropEmpty(xs) == [xs[0]] + rest;
        assert ([xs[0]] + rest)[1..] == rest;
      }
    }
  }

  /** The labels keep the order in which they were typed. */
  lemma LabelsKeepOrder(ccLabels: string)
    ensures IsSubsequence(ParseCcLabels(ccLabels), TrimEach(Split(ccLabels, ',')))
  {
    DropEmptyIsSubsequence(TrimEach(Split(ccLabels, ',')));
  }

  lemma {:induction false} DropEmptyOfNonEmpty(xs: seq<string>)
    requires forall i :: 0 <= i < |xs| ==> xs[i] != ""
    ensures DropEmpty(xs) == xs
  {
    if xs != [] {
      DropEmptyOfNonEmpty(xs[1..]);
      assert [xs[0]] + xs[1..] == xs;
    }
  }

  lemma TrimEachOfTrimmed(xs: seq<string>)
    requires forall i :: 0 <= i < |xs| ==> IsTrimmed(xs[i])
    ensures TrimEach(xs) == xs
  {
    forall i | 0 <= i < |xs| ensures Trim(xs[i]) == xs[i] {
      TrimmedIsFixed(xs[i]);
    }
  }

  /** Labels typed as a comma-separated list come back as that list. */
  lemma {:induction false} CcLabelsRoundTrip(labels: seq<string>)
    requires forall i :: 0 <= i < |labels| ==> labels[i] != "" && IsTrimmed(labels[i]) && ',' !in labels[i]
    ensures ParseCcLabels(Join(labels, ",")) == labels
  {
    if labels == [] {
      assert Split("", ',') == [""];
      assert TrimEach([""]) == [""];
    } else {
      SplitJoin(labels, ',');
      assert Split(Join(labels, ","), ',') == labels;
      TrimEachOfTrimmed(labels);
      DropEmptyOfNonEmpty(labels);
    }
  }

  /** The JSON array of some strings. */
  function StringArray(xs: seq<string>): (v: Value)
    ensures v.JArr? && |v.items| == |xs|
    ensures forall i :: 0 <= i < |xs| ==> v.items[i] == JStr(xs[i])
  {
    JArr(seq(|xs|, i requires 0 <= i < |xs| => JStr(xs[i])))
  }

  /**
   * The body of the passage `POST`: the trimmed text, the trimmed source or
   * `null` when it is blank, and the parsed labels.
   */
  function PassagePayload(text: string, source: string, ccLabels: string): (v: Value)
    ensures v.JObj? && v.fields.Keys == {"text", "source", "cc_labels"}
    ensures Json.Truthy(v)
  {
    JObj(map[
      "text" := JStr(Trim(text)),
      "source" := OrNull(Trim(source)),
      "cc_labels" := StringArray(ParseCcLabels(ccLabels))])
  }

  /**
   * The payload's fields: the trimmed text; `null` for a blank source and
   * the trimmed source otherwise; the labels as an array of strings.
   */
  lemma PassagePayloadFields(text: string, source: string, ccLabels: string)
    ensures var v := PassagePayload(text, source, ccLabels);
      && v.fields["text"] == JStr(Trim(text))
      && (v.fields["source"] == JNull <==> AllWhiteSpace(source))
      && (!AllWhiteSpace(source) ==> v.fields["source"] == JStr(Trim(source)))
      && v.fields["cc_labels"] == StringArray(ParseCcLabels(ccLabels))
  {
    TrimSpec(source);
  }

  /** The list's rendering of a request's text: at most 200 characters, then "…" when cut. */
  function Preview(text: string): (r: string)
    ensures |text| <= PreviewLength ==> r == text
    ensures |text| > PreviewLength ==> r == text[..PreviewLength] + Ellipsis
    ensures |r| <= PreviewLength + 1
  {
    Slice(text, 0, PreviewLength as int) + (if |text| > PreviewLength then Ellipsis else "")
  }

  /** The options of the passage request: a `POST` of `payload` with the token. */
  function PassageOptions(token: Option<string>, payload: Value): RequestOptions {
    RequestOptions(Some(POST), token, Some(payload), None, map[])
  }

  /** What the passage `POST` sends. */
  function PassageRequest(token: Option<string>, payload: Value): Request {
    PrepareRequest(PassagesPath, PassageOptions(token, payload))
  }

  /** The passage request is a `POST /v1/passages` whose body is the payload. */
  lemma PassageRequestShape(token: Option<string>, text: string, source: string, ccLabels: string)
    ensures var r := PassageRequest(token, PassagePayload(text, source, ccLabels));
      && r.verb == POST && r.url.path == PassagesPath && r.url.query == []
      && r.body == Some(PassagePayload(text, source, ccLabels))
  {
  }

  /** The options of the list request: the token and `status=pending`. */
  function PendingOptions(token: Option<string>): RequestOptions {
    RequestOptions(None, token, None, Some([("status", "pending")]), map[])
  }

  /** The list request asks for pending requests only, with a plain `GET`. */
  lemma PendingQuery(token: Option<string>)
    ensures PrepareRequest(RequestsPath, PendingOptions(token)).url.query == [("status", "pending")]
    ensures PrepareRequest(RequestsPath, PendingOptions(token)).verb == GET
    ensures PrepareRequest(RequestsPath, PendingOptions(token)).body == None
  {
    var entries := [("status", "pending")];
    assert entries[..0] == [];
  }

  /** The request list and its error once `fetchRequests` settles with `result`. */
  function AfterFetch(requests: Value, result: FetchResult): (Value, Option<string>) {
    match result
    case Ok(data) => (data, None)
    case _ => (requests, Some(CaughtMessage(result, ListFailedMessage)))
  }

  /** The state of `AdminPage`; `token` is the provider's token at render time. */
  class AdminPage {
    const token: Option<string>
    var text: string
    var source: string
    var ccLabels: string
    var submitMessage: Option<string>
    var submitLoading: bool
    var requests: Value
    var requestError: Option<string>
    var requestsLoading: bool

    /** The first render, before the mount effect fetches the list. */
    constructor (token: Option<string>)
      ensures this.token == token
      ensures text == "" && source == "" && ccLabels == ""
      ensures submitMessage == None && !submitLoading
      ensures requests == JArr([]) && requestError == None && requestsLoading
    {
      this.token := token;
      text, source, ccLabels := "", "", "";
      submitMessage, submitLoading := None, false;
      requests, requestError, requestsLoading := JArr([]), None, true;
    }

    /**
     * `fetchRequests`: `GET /v1/requests?status=pending`; the list and a
     * cleared error on success, the error message on failure; never loading
     * afterwards. The passage form is untouched.
     */
    method FetchRequests(outcome: HttpOutcome) returns (sent: Request)
      modifies this
      ensures sent == PrepareRequest(RequestsPath, PendingOptions(token))
      ensures sent.url.query == [("status", "pending")]
      ensures (requests, requestError) == AfterFetch(old(requests), Settle(sent, outcome))
      ensures !requestsLoading
      ensures text == old(text) && source == old(source) && ccLabels == old(ccLabels)
      ensures submitMessage == old(submitMessage) && submitLoading == old(submitLoading)
    {
      requestsLoading := true;
      var result;
      sent, result := ApiFetch(RequestsPath, PendingOptions(token), outcome);
      PendingQuery(token);
      match result {
        case Ok(data) =>
          requests := data;
          requestError := None;
        case _ =>
          requestError := Some(CaughtMessage(result, ListFailedMessage));
      }
      requestsLoading := false;
    }

    /**
     * `handlePassageSubmit`: blank text sets a message and sends nothing;
     * otherwise the payload is posted, the form is cleared on success, the
     * error shown on failure, and loading is off afterwards either way.
     */
    method HandlePassageSubmit(outcome: HttpOutcome) returns (sent: Option<Request>)
      modifies this
      ensures Trim(old(text)) == "" ==>
        && sent == None
        && submitMessage == Some(EmptyTextMessage)
        && text == old(text) && source == old(source) && ccLabels == old(ccLabels)
        && submitLoading == old(submitLoading)
      ensures Trim(old(text)) != "" ==>
        sent == Some(PassageRequest(token, PassagePayload(old(text), old(source), old(ccLabels))))
      ensures Trim(old(text)) != "" ==> !submitLoading
      ensures Trim(old(text)) != "" && Settle(sent.value, outcome).Ok? ==>
        submitMessage == Some(CreatedMessage) && text == "" && source == "" && ccLabels == ""
      ensures Trim(old(text)) != "" && !Settle(sent.value, outcome).Ok? ==>
        && submitMessage == Some(CaughtMessage(Settle(sent.value, outcome), SubmitFailedMessage))
        && text == old(text) && source == old(source) && ccLabels == old(ccLabels)
      ensures requests == old(requests) && requestError == old(requestError)
      ensures requestsLoading == old(requestsLoading)
    {
      if Trim(text) == "" {
        submitMessage := Some(EmptyTextMessage);
        return None;
      }
      submitLoading := true;
      submitMessage := None;
      var request := PostPassage(PassagePayload(text, source, ccLabels), outcome);
      sent := Some(request);
      submitLoading := false;
    }

    /** The `try`/`catch` of `handlePassageSubmit` once the payload is built. */
    method PostPassage(payload: Value, outcome: HttpOutcome) returns (sent: Request)
      modifies this
      ensures sent == PassageRequest(token, payload)
      ensures Settle(sent, outcome).Ok? ==>
        submitMessage == Some(CreatedMessage) && text == "" && source == "" && ccLabels == ""
      ensures !Settle(sent, outcome).Ok? ==>
        && submitMessage == Some(CaughtMessage(Settle(sent, outcome), SubmitFailedMessage))
        && text == old(text) && source == old(source) && ccLabels == old(ccLabels)
      ensures submitLoading == old(submitLoading)
      ensures requests == old(requests) && requestError == old(requestError)
      ensures requestsLoading == old(requestsLoading)
    {
      var result;
      sent, result := ApiFetch(PassagesPath, PassageOptions(token, payload), outcome);
      if result.Ok? {
        submitMessage := Some(CreatedMessage);
        text, source, ccLabels := "", "", "";
      } else {
        submitMessage := Some(CaughtMessage(result, SubmitFailedMessage));
      }
    }

    /**
     * `handleCompleteRequest(id)`: `PUT /v1/requests/{id}/complete`; on
     * success the list is fetched again, on failure only the error changes.
     */
    method HandleCompleteRequest(id: string, completeOutcome: HttpOutcome, listOutcome: HttpOutcome)
      returns (sentComplete: Request, sentList: Option<Request>)
      modifies this
      ensures sentComplete == PrepareRequest(RequestsPath + "/" + id + "/complete",
                                             RequestOptions(Some(PUT), token, None, None, map[]))
      ensures Settle(sentComplete, completeOutcome).Ok? ==>
        && sentList == Some(PrepareRequest(RequestsPath, PendingOptions(token)))
        && (requests, requestError) == AfterFetch(old(requests), Settle(sentList.value, listOutcome))
        && !requestsLoading
      ensures !Settle(sentComplete, completeOutcome).Ok? ==>
        && sentList == None
        && requests == old(requests)
        && requestError == Some(CaughtMessage(Settle(sentComplete, completeOutcome), CompleteFailedMessage))
        && requestsLoading == old(requestsLoading)
      ensures text == old(text) && source == old(source) && ccLabels == old(ccLabels)
      ensures submitMessage == old(submitMessage) && submitLoading == old(submitLoading)
    {
      var result;
      sentComplete, result := ApiFetch(RequestsPath + "/" + id + "/complete",
                                       RequestOptions(Some(PUT), token, None, None, map[]), completeOutcome);
      if result.Ok? {
        var list := FetchRequests(listOutcome);
        sentList := Some(list);
      } else {
        requestError := Some(CaughtMessage(result, CompleteFailedMessage));
        sentList := None;
      }
    }
  }
}

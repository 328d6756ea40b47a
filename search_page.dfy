/**
 * src/app/page.tsx: the search page. One form searches passages by text,
 * CC name or source; another asks the administrators for a passage that is
 * not there yet. Every handler is one atomic step from its pre-state and
 * the server's answer.
 */
module SearchPage {
  import opened Wrappers
  import opened JsStrings
  import opened Json
  import opened ApiClient

  const SearchPath: string := "/v1/search"
  const RequestsPath: string := "/v1/requests"

  const EmptyQueryMessage: string := "검색어를 입력하세요."
  const SearchFailedMessage: string := "검색 중 오류가 발생했습니다."
  const EmptyRequestMessage: string := "요청 지문을 입력해주세요."
  const RequestAcceptedMessage: string := "요청이 접수되었습니다."
  const RequestFailedMessage: string := "요청 처리 중 오류가 발생했습니다."

  const LoadingLabel: string := "요청 중..."
  const SuccessLabel: string := "요청 완료"
  const SubmitLabel: string := "요청 제출"

  /** `SearchType`: what the query is matched against. */
  datatype SearchType = Text | Cc | Source

  /** The `type` parameter the server expects for each search type. */
  function TypeValue(t: SearchType): string {
    match t
    case Text => "text"
    case Cc => "cc"
    case Source => "source"
  }

  /** `searchTypeOptions`: the options of the select box, in display order. */
  const SearchTypeOptions: seq<(string, SearchType)> :=
    [("지문 텍스트", Text), ("CC 이름", Cc), ("출처", Source)]

  /** Every search type is offered exactly once, and no two send the same `type`. */
  lemma SearchTypeOptionsComplete(t: SearchType)
    ensures exists i :: 0 <= i < |SearchTypeOptions| && SearchTypeOptions[i].1 == t
    ensures forall i, j :: 0 <= i < j < |SearchTypeOptions| ==>
      SearchTypeOptions[i].1 != SearchTypeOptions[j].1
      && TypeValue(SearchTypeOptions[i].1) != TypeValue(SearchTypeOptions[j].1)
  {
    match t
    case Text => assert SearchTypeOptions[0].1 == t;
    case Cc => assert SearchTypeOptions[1].1 == t;
    case Source => assert SearchTypeOptions[2].1 == t;
  }

  /** The state of the request form's `requestStatus`. */
  datatype RequestStatus = Idle | Loading | Succeeded | Errored

  /** `requestStatusLabel`: the request button's label. */
  function RequestStatusLabel(status: RequestStatus): (r: string)
    ensures status == Loading ==> r == LoadingLabel
    ensures status == Succeeded ==> r == SuccessLabel
    ensures status == Idle || status == Errored ==> r == SubmitLabel
  {
    if status == Loading then LoadingLabel
    else if status == Succeeded then SuccessLabel
    else SubmitLabel
  }

  /**
   * The label tells loading and success apart from each other and from the
   * rest; only idle and error share the plain submit label.
   */
  lemma StatusLabelDistinguishes(a: RequestStatus, b: RequestStatus)
    ensures RequestStatusLabel(a) == RequestStatusLabel(b)
      <==> a == b || (a in {Idle, Errored} && b in {Idle, Errored})
  {
    assert LoadingLabel != SuccessLabel by { assert LoadingLabel[3] != SuccessLabel[3]; }
    assert LoadingLabel != SubmitLabel by { assert LoadingLabel[3] != SubmitLabel[3]; }
    assert SuccessLabel != SubmitLabel by { assert SuccessLabel[3] != SubmitLabel[3]; }
  }

  /** The search request's options: `q` and `type`, with the token. */
  function SearchOptions(token: Option<string>, query: string, t: SearchType): RequestOptions {
    RequestOptions(None, token, None, Some([("q", Trim(query)), ("type", TypeValue(t))]), map[])
  }

  /** What the search sends. */
  function SearchRequest(token: Option<string>, query: string, t: SearchType): Request {
    PrepareRequest(SearchPath, SearchOptions(token, query, t))
  }

  /**
   * A search that passed validation is a body-less `GET /v1/search` whose
   * query is exactly `q` (the trimmed query) and `type`.
   */
  lemma SearchRequestShape(token: Option<string>, query: string, t: SearchType)
    requires Trim(query) != ""
    ensures var r := SearchRequest(token, query, t);
      && r.verb == GET && r.url.path == SearchPath && r.body == None
      && r.url.query == [("q", Trim(query)), ("type", TypeValue(t))]
  {
    var q, v := Trim(query), TypeValue(t);
    var entries := [("q", q), ("type", v)];
    assert entries[..1] == [entries[0]];
    assert entries[..1][..0] == [];
    assert BuildQuery(entries[..1]) == [("q", q)];
    assert "q" != "type";
    assert SetParam([("q", q)], "type", v) == [("q", q)] + SetParam([], "type", v);
  }

  /**
   * The body of the request `POST`: the trimmed text, the trimmed source and
   * CC name or `null` when blank, and the requester's identifier.
   */
  function RequestPayload(text: string, source: string, cc: string, requesterId: string): (v: Value)
    ensures v.JObj? && v.fields.Keys == {"text", "source", "cc_name", "requester_id"}
    ensures Json.Truthy(v)
  {
    JObj(map[
      "text" := JStr(Trim(text)),
      "source" := OrNull(Trim(source)),
      "cc_name" := OrNull(Trim(cc)),
      "requester_id" := JStr(requesterId)])
  }

  /**
   * The payload's fields: the trimmed text; `null` for a blank source or CC
   * name and the trimmed value otherwise; the identifier unchanged.
   */
  lemma RequestPayloadFields(text: string, source: string, cc: string, requesterId: string)
    ensures var v := RequestPayload(text, source, cc, requesterId);
      && v.fields["text"] == JStr(Trim(text))
      && (v.fields["source"] == JNull <==> AllWhiteSpace(source))
      && (!AllWhiteSpace(source) ==> v.fields["source"] == JStr(Trim(source)))
      && (v.fields["cc_name"] == JNull <==> AllWhiteSpace(cc))
      && (!AllWhiteSpace(cc) ==> v.fields["cc_name"] == JStr(Trim(cc)))
      && v.fields["requester_id"] == JStr(requesterId)
  {
    TrimSpec(source);
    TrimSpec(cc);
  }

  /** What the request `POST` sends. */
  function SubmissionRequest(token: Option<string>, payload: Value): Request {
    PrepareRequest(RequestsPath, RequestOptions(Some(POST), token, Some(payload), None, map[]))
  }

  /** The state of `SearchPage`; `token` is the provider's token at render time. */
  class SearchPage {
    const token: Option<string>
    var query: string
    var searchType: SearchType
    var loading: bool
    var results: Value
    var error: Option<string>
    var requestText: string
    var requestSource: string
    var requestCc: string
    var requestStatus: RequestStatus
    var requestMessage: Option<string>

    /** The first render. */
    constructor (token: Option<string>)
      ensures this.token == token
      ensures query == "" && searchType == Text && !loading && results == JArr([]) && error == None
      ensures requestText == "" && requestSource == "" && requestCc == ""
      ensures requestStatus == Idle && requestMessage == None
    {
      this.token := token;
      query, searchType, loading, results, error := "", Text, false, JArr([]), None;
      requestText, requestSource, requestCc := "", "", "";
      requestStatus, requestMessage := Idle, None;
    }

    /**
     * `handleSearch`: a blank query sets the error and sends nothing;
     * otherwise the results are replaced on success, the error shown on
     * failure, and loading is off afterwards either way. The request form
     * is untouched.
     */
    method HandleSearch(outcome: HttpOutcome) returns (sent: Option<Request>)
      modifies this
      ensures query == old(query) && searchType == old(searchType)
      ensures Trim(query) == "" ==>
        && sent == None
        && error == Some(EmptyQueryMessage)
        && loading == old(loading) && results == old(results)
      ensures Trim(query) != "" ==>
        && sent == Some(SearchRequest(token, query, searchType))
        && !loading
      ensures Trim(query) != "" && Settle(sent.value, outcome).Ok? ==>
        results == Settle(sent.value, outcome).value && error == None
      ensures Trim(query) != "" && !Settle(sent.value, outcome).Ok? ==>
        results == old(results) && error == Some(CaughtMessage(Settle(sent.value, outcome), SearchFailedMessage))
      ensures requestText == old(requestText) && requestSource == old(requestSource) && requestCc == old(requestCc)
      ensures requestStatus == old(requestStatus) && requestMessage == old(requestMessage)
    {
      if Trim(query) == "" {
        error := Some(EmptyQueryMessage);
        return None;
      }
      loading := true;
      error := None;
      var request, result := ApiFetch(SearchPath, SearchOptions(token, query, searchType), outcome);
      sent := Some(request);
      if result.Ok? {
        results := result.value;
      } else {
        error := Some(CaughtMessage(result, SearchFailedMessage));
      }
      loading := false;
    }

    /**
     * `handleRequestSubmit`: blank text is an error with a message and
     * nothing sent; otherwise the payload is posted, and the request form
     * ends in success (inputs cleared) or error (inputs kept), never loading.
     * The search form is untouched.
     */
    method HandleRequestSubmit(requesterId: string, outcome: HttpOutcome) returns (sent: Option<Request>)
      modifies this
      ensures requestStatus != Loading
      ensures Trim(old(requestText)) == "" ==>
        && sent == None
        && requestStatus == Errored && requestMessage == Some(EmptyRequestMessage)
        && requestText == old(requestText) && requestSource == old(requestSource) && requestCc == old(requestCc)
      ensures Trim(old(requestText)) != "" ==>
        sent == Some(SubmissionRequest(token,
          RequestPayload(old(requestText), old(requestSource), old(requestCc), requesterId)))
      ensures Trim(old(requestText)) != "" && Settle(sent.value, outcome).Ok? ==>
        && requestStatus == Succeeded && requestMessage == Some(RequestAcceptedMessage)
        && requestText == "" && requestSource == "" && requestCc == ""
      ensures Trim(old(requestText)) != "" && !Settle(sent.value, outcome).Ok? ==>
        && requestStatus == Errored
        && requestMessage == Some(CaughtMessage(Settle(sent.value, outcome), RequestFailedMessage))
        && requestText == old(requestText) && requestSource == old(requestSource) && requestCc == old(requestCc)
      ensures query == old(query) && searchType == old(searchType) && loading == old(loading)
      ensures results == old(results) && error == old(error)
    {
      if Trim(requestText) == "" {
        requestStatus := Errored;
        requestMessage := Some(EmptyRequestMessage);
        return None;
      }
      requestStatus := Loading;
      requestMessage := None;
      var request := PostRequest(RequestPayload(requestText, requestSource, requestCc, requesterId), outcome);
      sent := Some(request);
    }

    /** The `try`/`catch` of `handleRequestSubmit` once the payload is built. */
    method PostRequest(payload: Value, outcome: HttpOutcome) returns (sent: Request)
      modifies this
      ensures sent == SubmissionRequest(token, payload)
      ensures Settle(sent, outcome).Ok? ==>
        && requestStatus == Succeeded && requestMessage == Some(RequestAcceptedMessage)
        && requestText == "" && requestSource == "" && requestCc == ""
      ensures !Settle(sent, outcome).Ok? ==>
        && requestStatus == Errored
        && requestMessage == Some(CaughtMessage(Settle(sent, outcome), RequestFailedMessage))
        && requestText == old(requestText) && requestSource == old(requestSource) && requestCc == old(requestCc)
      ensures query == old(query) && searchType == old(searchType) && loading == old(loading)
      ensures results == old(results) && error == old(error)
    {
      var result;
      sent, result := ApiFetch(RequestsPath, RequestOptions(Some(POST), token, Some(payload), None, map[]), outcome);
      if result.Ok? {
        requestStatus := Succeeded;
        requestMessage := Some(RequestAcceptedMessage);
        requestText, requestSource, requestCc := "", "", "";
      } else {
        requestStatus := Errored;
        requestMessage := Some(CaughtMessage(result, RequestFailedMessage));
      }
    }
  }
}

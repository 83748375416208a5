/** The response envelope (src/baseApiRequestHandler.js, lines 198-316):
    what `sendError` and `sendResponse` hand to the transport, and the
    at-most-once delivery rule they share. */
module Envelope {
  import opened Store

  /** The route's response data, as serialised by the Response model. */
  type Payload = string

  /** The error object of an error response (line 208). */
  datatype ErrorInfo = ErrorInfo(domain: string, code: int, message: string)

  /** The JSON body written: `{error: {domain, code, message}}`, or
      `{date, error?, response}` where `error` holds the joined warnings. */
  datatype Body =
    | ErrorBody(error: ErrorInfo)
    | SuccessBody(date: Option<int>, warnings: Option<string>, response: Option<Payload>)

  /** One `response.status(code).json(body)` call (line 278). */
  datatype Write = Write(status: int, body: Body)

  /** The write log after an attempt to send `w`: a log that already holds
      the response is left as it is. */
  function Deliver(log: seq<Write>, w: Write): (r: seq<Write>)
    ensures log == [] ==> r == [w]
    ensures log != [] ==> r == log
  {
    if log == [] then [w] else log
  }

  /** However many sends follow each other, a log that started empty holds
      exactly one write, the first one. */
  lemma {:induction false} DeliverAll(sends: seq<Write>)
    requires sends != []
    ensures DeliverEach([], sends) == [sends[0]]
  {
    DeliverEachKeeps([sends[0]], sends[1..]);
    assert sends == [sends[0]] + sends[1..];
  }

  /** The log after a series of attempts to send. */
  function DeliverEach(log: seq<Write>, sends: seq<Write>): (r: seq<Write>)
    decreases |sends|
  {
    if sends == [] then log else DeliverEach(Deliver(log, sends[0]), sends[1..])
  }

  lemma {:induction false} DeliverEachKeeps(log: seq<Write>, sends: seq<Write>)
    requires log != []
    ensures DeliverEach(log, sends) == log
    decreases |sends|
  {
    if sends != [] {
      DeliverEachKeeps(Deliver(log, sends[0]), sends[1..]);
    }
  }

  /** Line 205: `errorCode || responseCode`; 0 counts as not given. */
  function ErrorCode(responseCode: int, errorCode: Option<int>): (code: int)
    ensures errorCode.Some? && errorCode.value != 0 ==> code == errorCode.value
    ensures errorCode.None? || errorCode.value == 0 ==> code == responseCode
  {
    if errorCode.Some? && errorCode.value != 0 then errorCode.value else responseCode
  }

  /** Line 206: `errorDomain || this.request.url`; "" counts as not given. */
  function ErrorDomain(errorDomain: Option<string>, url: string): (domain: string)
    ensures errorDomain.Some? && errorDomain.value != "" ==> domain == errorDomain.value
    ensures errorDomain.None? || errorDomain.value == "" ==> domain == url
  {
    if errorDomain.Some? && errorDomain.value != "" then errorDomain.value else url
  }

  /** What `sendError` writes (lines 204-211): the HTTP status it was given,
      and a body that is exactly {domain, code, message}. */
  function ErrorResponse(responseCode: int, message: string, errorDomain: Option<string>, errorCode: Option<int>, url: string): (w: Write)
    ensures w.status == responseCode
    ensures w.body == ErrorBody(ErrorInfo(ErrorDomain(errorDomain, url), ErrorCode(responseCode, errorCode), message))
    ensures errorDomain.None? && errorCode.None? ==> w.body.error == ErrorInfo(url, responseCode, message)
  {
    Write(responseCode, ErrorBody(ErrorInfo(ErrorDomain(errorDomain, url), ErrorCode(responseCode, errorCode), message)))
  }

  /** The characters `String.prototype.trim` removes: white space (including
      the Unicode space separators) and line terminators. */
  predicate IsJsWhitespace(c: char) {
    c == '\t' || c == '\n' || c == '\U{000B}' || c == '\U{000C}' || c == '\r' || c == ' ' ||
    c == '\U{00A0}' || c == '\U{1680}' || ('\U{2000}' <= c <= '\U{200A}') ||
    c == '\U{2028}' || c == '\U{2029}' || c == '\U{202F}' || c == '\U{205F}' ||
    c == '\U{3000}' || c == '\U{FEFF}'
  }

  function TrimEnd(s: string): (r: string)
    ensures |r| <= |s| && r == s[..|r|]
    ensures r == [] || !IsJsWhitespace(r[|r| - 1])
    ensures forall i :: |r| <= i < |s| ==> IsJsWhitespace(s[i])
  {
    if s == [] || !IsJsWhitespace(s[|s| - 1]) then s else TrimEnd(s[..|s| - 1])
  }

  function TrimStart(s: string): (r: string)
    ensures |r| <= |s| && r == s[|s| - |r|..]
    ensures r == [] || !IsJsWhitespace(r[0])
    ensures forall i :: 0 <= i < |s| - |r| ==> IsJsWhitespace(s[i])
  {
    if s == [] || !IsJsWhitespace(s[0]) then s else TrimStart(s[1..])
  }

  /** `String.prototype.trim`: neither end of the result is white space. */
  function Trim(s: string): (r: string)
    ensures r == [] || (!IsJsWhitespace(r[0]) && !IsJsWhitespace(r[|r| - 1]))
  {
    var e := TrimEnd(s);
    var t := TrimStart(e);
    assert t != [] ==> t[|t| - 1] == e[|e| - 1];
    t
  }

  /** `trim` removes white space at the two ends and nothing else: the
      result is a slice of the input with only white space outside it. */
  lemma TrimRemovesOnlyEnds(s: string)
    ensures exists i, j :: 0 <= i <= j <= |s| && Trim(s) == s[i..j] &&
              (forall k :: 0 <= k < i ==> IsJsWhitespace(s[k])) &&
              (forall k :: j <= k < |s| ==> IsJsWhitespace(s[k]))
  {
    var e := TrimEnd(s);
    var t := TrimStart(e);
    var i, j := |e| - |t|, |e|;
    assert t == s[i..j];
    assert forall k :: 0 <= k < i ==> IsJsWhitespace(s[k]) by {
      forall k | 0 <= k < i ensures IsJsWhitespace(s[k]) {
        assert s[k] == e[k];
      }
    }
  }

  /** The string the loop of lines 258-262 builds: each warning followed by
      a newline. */
  function WarningLines(errors: seq<string>): string
  {
    if errors == [] then ""
    else WarningLines(errors[..|errors| - 1]) + errors[|errors| - 1] + "\n"
  }

  /** The warnings joined with a newline between neighbours. */
  function JoinLines(errors: seq<string>): string
    requires errors != []
  {
    if |errors| == 1 then errors[0]
    else JoinLines(errors[..|errors| - 1]) + "\n" + errors[|errors| - 1]
  }

  lemma {:induction false} WarningLinesEndWithNewline(errors: seq<string>)
    requires errors != []
    ensures WarningLines(errors) == JoinLines(errors) + "\n"
  {
    var n := |errors|;
    if n == 1 {
      assert errors[..0] == [];
    } else {
      var front := errors[..n - 1];
      WarningLinesEndWithNewline(front);
      calc {
        WarningLines(errors);
        WarningLines(front) + errors[n - 1] + "\n";
        (JoinLines(front) + "\n") + errors[n - 1] + "\n";
        { assert (JoinLines(front) + "\n") + errors[n - 1] == JoinLines(front) + "\n" + errors[n - 1]; }
        JoinLines(errors) + "\n";
      }
    }
  }

  lemma TrimEndDropsTrailingNewline(s: string)
    ensures TrimEnd(s + "\n") == TrimEnd(s)
  {
    var t := s + "\n";
    assert t[..|t| - 1] == s;
  }

  /** The `error` field of a success response is the warnings joined by
      newlines and then trimmed: the trailing newline the loop leaves after
      the last warning never shows. */
  lemma WarningTextIsJoined(errors: seq<string>)
    ensures errors != [] ==> Trim(WarningLines(errors)) == Trim(JoinLines(errors))
  {
    if errors != [] {
      WarningLinesEndWithNewline(errors);
      TrimEndDropsTrailingNewline(JoinLines(errors));
    }
  }

  /** Lines 257-265: the warning text of a success response. */
  method JoinWarnings(errors: seq<string>) returns (text: string)
    ensures text == Trim(WarningLines(errors))
    ensures errors != [] ==> text == Trim(JoinLines(errors))
    ensures text == [] || (!IsJsWhitespace(text[0]) && !IsJsWhitespace(text[|text| - 1]))
  {
    var joined := "";
    var i := 0;
    while i < |errors|
      invariant 0 <= i <= |errors|
      invariant joined == WarningLines(errors[..i])
    {
      assert errors[..i + 1][..i] == errors[..i];
      joined := joined + errors[i] + "\n";
      i := i + 1;
    }
    assert errors[..|errors|] == errors;
    text := Trim(joined);
    WarningTextIsJoined(errors);
  }

  /** `customizeResponseData` of the base handler (lines 299-303): a hook a
      route overrides; the base leaves the data as it is. */
  function CustomizeResponseData(data: Payload): (r: Payload)
    ensures r == data
  {
    data
  }

  /** `customizeResponse` of the base handler (lines 312-316): the base
      leaves the whole body as it is. */
  function CustomizeResponse(body: Body): (r: Body)
    ensures r == body
  {
    body
  }

  /** What `sendResponse` writes (lines 236-270): the status it was given;
      the date taken when the handler was initialised, not at send time; the
      warnings, present exactly when there are some; and the route's data. */
  function SuccessResponse(code: int, data: Option<Payload>, responseTime: Option<int>, errors: seq<string>): (w: Write)
    ensures w.status == code && w.body.SuccessBody?
    ensures w.body.date == responseTime
    ensures w.body.warnings.Some? <==> errors != []
    ensures errors != [] ==> w.body.warnings.value == Trim(JoinLines(errors))
    ensures w.body.response == data
  {
    WarningTextIsJoined(errors);
    var response := if data.Some? then Some(CustomizeResponseData(data.value)) else None;
    var warnings := if errors != [] then Some(Trim(WarningLines(errors))) else None;
    Write(code, CustomizeResponse(SuccessBody(responseTime, warnings, response)))
  }

  /** Two warnings come out on two lines, with no newline at the end. */
  lemma TwoWarnings()
    ensures SuccessResponse(200, None, Some(7), ["late", "partial"]).body.warnings == Some("late\npartial")
  {
    var es := ["late", "partial"];
    assert es[..1] == ["late"];
    var j := JoinLines(es);
    assert j == "late\npartial";
    assert TrimEnd(j) == j;
    assert TrimStart(j) == j;
  }
}

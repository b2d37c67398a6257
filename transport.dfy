/** The transport: one POST of the signed fields to `host + "/api/"` through
    a cURL handle configured from four optional settings, and the
    classification of the HTTP outcome. */
module Transport {
  import opened Php
  import opened Exceptions

  /** What the environment does with one request: whether curl_init gave a
      handle, and then the HTTP status (0 when no response arrived), the
      cURL error text and the response body (empty when curl_exec failed). */
  datatype Exchange = Exchange(initOk: bool, httpCode: nat, curlError: string, body: string)

  /** The cURL options the transport sets. */
  datatype CurlOpt =
    | ReturnTransfer
    | Post
    | ConnectTimeout
    | Timeout
    | SslVerifyPeer
    | SslVerifyHost
    | CaInfo
    | CaPath
    | PostFields

  datatype OptValue =
    | IntValue(i: int)
    | BoolValue(b: bool)
    | TextValue(s: string)
    | FormValue(fields: seq<(string, string)>)  // the array handed to http_build_query

  /** One call into the transport: the host and the fields to post. */
  datatype TransportCall = TransportCall(host: string, fields: seq<(string, string)>)

  /** A cURL handle: the URL it was opened on and the value each option was
      last set to by curl_setopt. */
  datatype CurlHandle = CurlHandle(url: string, options: map<CurlOpt, OptValue>)

  const ApiPath: string := "/api/"
  const InitFailureMessage: string := "CURL init failure"
  const ResponseCodeLabel: string := "Response code: "
  const CurlErrorLabel: string := "cURL error: "
  const BodyLabel: string := "Body: "
  const Eol: string := "\n"

  /** The value an option was set to, None if it was never set. */
  function Effective(options: map<CurlOpt, OptValue>, opt: CurlOpt): Option<OptValue>
  {
    if opt in options then Some(options[opt]) else None
  }

  /** `t` occurs in `s` at position `k`. */
  predicate OccursAt(s: string, t: string, k: int)
  {
    0 <= k <= |s| - |t| && s[k..k + |t|] == t
  }

  function IntSetting(field: Option<int>): Option<OptValue>
  {
    if field.Some? then Some(IntValue(field.value)) else None
  }

  function TextSetting(field: Option<string>): Option<OptValue>
  {
    if field.Some? then Some(TextValue(field.value)) else None
  }

  /** The message of the exception raised for a status other than 200. */
  function ResponseMessage(code: nat, error: string, body: string): string
  {
    ResponseCodeLabel + Decimal(code) + Eol + CurlErrorLabel + error + Eol + BodyLabel + body
  }

  /** The longest prefix of `s` made of digits. */
  function LeadingDigits(s: string): (d: string)
    ensures |d| <= |s| && d == s[..|d|]
    ensures forall i :: 0 <= i < |d| ==> IsDigit(d[i])
  {
    if s == [] || !IsDigit(s[0]) then "" else [s[0]] + LeadingDigits(s[1..])
  }

  /** The status code an operator reads off the head of an exception message. */
  function StatusCodeIn(message: string): Option<nat>
  {
    var n := |ResponseCodeLabel|;
    if |message| < n || message[..n] != ResponseCodeLabel then None
    else
      var digits := LeadingDigits(message[n..]);
      if digits == "" then None else Some(DigitsValue(digits))
  }

  lemma {:induction false} LeadingDigitsOf(d: string, rest: string)
    requires forall i :: 0 <= i < |d| ==> IsDigit(d[i])
    requires rest == [] || !IsDigit(rest[0])
    ensures LeadingDigits(d + rest) == d
  {
    if d != [] {
      assert (d + rest)[1..] == d[1..] + rest;
      LeadingDigitsOf(d[1..], rest);
      assert d == [d[0]] + d[1..];
    } else {
      assert d + rest == rest;
    }
  }

  /** The status code can be read back from the head of the message. */
  lemma {:induction false} ResponseMessageCode(code: nat, error: string, body: string)
    ensures StatusCodeIn(ResponseMessage(code, error, body)) == Some(code)
  {
    var digits := Decimal(code);
    var rest := Eol + CurlErrorLabel + error + Eol + BodyLabel + body;
    var m := ResponseCodeLabel + (digits + rest);
    assert ResponseMessage(code, error, body) == m;
    assert m[..|ResponseCodeLabel|] == ResponseCodeLabel;
    assert m[|ResponseCodeLabel|..] == digits + rest;
    assert rest[0] == '\n';
    LeadingDigitsOf(digits, rest);
    DecimalRoundTrip(code);
  }

  /** The cURL error text occurs in the message as it was. */
  lemma ResponseMessageError(code: nat, error: string, body: string)
    ensures exists k :: OccursAt(ResponseMessage(code, error, body), error, k)
  {
    var head := ResponseCodeLabel + Decimal(code) + Eol + CurlErrorLabel;
    var tail := Eol + BodyLabel + body;
    var m := head + error + tail;
    assert ResponseMessage(code, error, body) == m;
    assert m[|head|..|head| + |error|] == error;
    assert OccursAt(m, error, |head|);
  }

  /** The message ends with the raw body. */
  lemma ResponseMessageBody(code: nat, error: string, body: string)
    ensures var m := ResponseMessage(code, error, body);
      |body| <= |m| && m[|m| - |body|..] == body
  {
  }

  /** What communicate returns or raises, given what the environment did. */
  function Outcome(jsonDecode: string -> Value, network: Exchange): Result<Value, Exception>
  {
    if !network.initOk then
      Failure(TransportException(InitFailureMessage))
    else if network.httpCode == 0 || network.httpCode != 200 then
      Failure(TransportException(ResponseMessage(network.httpCode, network.curlError, network.body)))
    else
      Success(jsonDecode(network.body))
  }

  /** A call succeeds exactly when a handle was obtained and the status was
      200, and then returns whatever the decoder yields for the body. */
  lemma OutcomeSucceedsOnlyOn200(jsonDecode: string -> Value, network: Exchange)
    ensures Outcome(jsonDecode, network).Success? <==> network.initOk && network.httpCode == 200
    ensures Outcome(jsonDecode, network).Success? ==>
      Outcome(jsonDecode, network).value == jsonDecode(network.body)
  {
  }

  /** Any other status, a missing (0) one included, raises the transport
      exception with the code, the cURL error and the body in its message. */
  lemma {:induction false} OutcomeReportsFailure(jsonDecode: string -> Value, network: Exchange)
    requires network.initOk && network.httpCode != 200
    ensures Outcome(jsonDecode, network).Failure?
    ensures var e := Outcome(jsonDecode, network).error;
      e.TransportException? &&
      StatusCodeIn(e.message) == Some(network.httpCode) &&
      (exists k :: OccursAt(e.message, network.curlError, k)) &&
      |network.body| <= |e.message| &&
      e.message[|e.message| - |network.body|..] == network.body
  {
    ResponseMessageCode(network.httpCode, network.curlError, network.body);
    ResponseMessageError(network.httpCode, network.curlError, network.body);
    ResponseMessageBody(network.httpCode, network.curlError, network.body);
  }

  class Transport {
    var cert: Option<string>                  // certificate file name
    var caPath: Option<string>                // directory of CA certificates
    var connectTimeoutOption: Option<int>
    var timeoutOption: Option<int>
    /** Every call made into communicate so far, oldest first. */
    ghost var calls: seq<TransportCall>

    constructor ()
      ensures cert == None && caPath == None
      ensures connectTimeoutOption == None && timeoutOption == None
      ensures calls == []
    {
      cert, caPath := None, None;
      connectTimeoutOption, timeoutOption := None, None;
      calls := [];
    }

    /** POSTs `data` to `host + "/api/"`, recording the call. Also returns the
        handle as cURL was left configured (None when curl_init failed). The
        four settings are only read. */
    method Communicate(php: Runtime, host: string, data: seq<(string, string)>, network: Exchange)
      returns (handle: Option<CurlHandle>, r: Result<Value, Exception>)
      modifies this`calls
      ensures calls == old(calls) + [TransportCall(host, data)]
      ensures handle.Some? <==> network.initOk
      ensures handle.Some? ==> handle.value.url == host + ApiPath
      ensures handle.Some? ==>
        var o := handle.value.options;
        && Effective(o, ReturnTransfer) == Some(IntValue(1))
        && Effective(o, Post) == Some(IntValue(1))
        && Effective(o, ConnectTimeout) == IntSetting(connectTimeoutOption)
        && Effective(o, Timeout) == IntSetting(timeoutOption)
        && Effective(o, SslVerifyPeer) == Some(BoolValue(true))
        && Effective(o, SslVerifyHost) == Some(IntValue(2))
        && Effective(o, CaInfo) == TextSetting(cert)
        && Effective(o, CaPath) == TextSetting(caPath)
        && Effective(o, PostFields) == Some(FormValue(data))
      ensures r == Outcome(php.jsonDecode, network)
    {
      calls := calls + [TransportCall(host, data)];
      if !network.initOk {
        return None, Failure(TransportException(InitFailureMessage));
      }
      var url := host + ApiPath;
      var options: map<CurlOpt, OptValue> := map[];
      options := options[ReturnTransfer := IntValue(1)];
      options := options[Post := IntValue(1)];
      if connectTimeoutOption.Some? {
        options := options[ConnectTimeout := IntValue(connectTimeoutOption.value)];
      }
      if timeoutOption.Some? {
        options := options[Timeout := IntValue(timeoutOption.value)];
      }
      options := options[SslVerifyPeer := BoolValue(true)];
      options := options[SslVerifyHost := IntValue(2)];
      if cert.Some? {
        options := options[CaInfo := TextValue(cert.value)];
      }
      if caPath.Some? {
        options := options[CaPath := TextValue(caPath.value)];
      }
      options := options[PostFields := FormValue(data)];
      handle := Some(CurlHandle(url, options));

      if network.httpCode == 0 || network.httpCode != 200 {
        r := Failure(TransportException(ResponseMessage(network.httpCode, network.curlError, network.body)));
      } else {
        r := Success(php.jsonDecode(network.body));
      }
    }

    method GetCert() returns (c: Option<string>)
      ensures c == cert
    {
      c := cert;
    }

    method SetCert(c: Option<string>)
      modifies this`cert
      ensures cert == c
      ensures caPath == old(caPath)
      ensures connectTimeoutOption == old(connectTimeoutOption) && timeoutOption == old(timeoutOption)
    {
      cert := c;
    }

    method GetCAPath() returns (p: Option<string>)
      ensures p == caPath
    {
      p := caPath;
    }

    method SetCAPath(p: Option<string>)
      modifies this`caPath
      ensures caPath == p
      ensures cert == old(cert)
      ensures connectTimeoutOption == old(connectTimeoutOption) && timeoutOption == old(timeoutOption)
    {
      caPath := p;
    }

    method GetConnectTimeoutOption() returns (t: Option<int>)
      ensures t == connectTimeoutOption
    {
      t := connectTimeoutOption;
    }

    method GetTimeoutOption() returns (t: Option<int>)
      ensures t == timeoutOption
    {
      t := timeoutOption;
    }

    method SetConnectTimeoutOption(t: Option<int>)
      modifies this`connectTimeoutOption
      ensures connectTimeoutOption == t
      ensures cert == old(cert) && caPath == old(caPath)
      ensures timeoutOption == old(timeoutOption)
    {
      connectTimeoutOption := t;
    }

    method SetTimeoutOption(t: Option<int>)
      modifies this`timeoutOption
      ensures timeoutOption == t
      ensures cert == old(cert) && caPath == old(caPath)
      ensures connectTimeoutOption == old(connectTimeoutOption)
    {
      timeoutOption := t;
    }
  }
}

/** Rendering of the API's structured errors: `FormatErrors` and the message
    `readErrorFromResponse` builds when a response carries an unexpected
    status code. */
module ErrorFormat {
  import opened Api
  import opened Text

  /** One error as "ID: <id> Text: '<message>'". */
  function FormatError(e: ApiError): string {
    "ID: " + IntToDecimal(e.id as int) + " Text: '" + e.message + "'"
  }

  /** The rendered entries, one per error, in the order received. */
  function Entries(es: seq<ApiError>): (r: seq<string>)
    ensures |r| == |es|
    ensures forall i :: 0 <= i < |es| ==> r[i] == FormatError(es[i])
  {
    seq(|es|, i requires 0 <= i < |es| => FormatError(es[i]))
  }

  /** What `FormatErrors` returns: the entries joined by ", ". */
  function FormattedErrors(es: seq<ApiError>): string {
    Join(Entries(es), ", ")
  }

  /** `FormatErrors`: append one rendered entry per error, then join. */
  method FormatErrors(es: seq<ApiError>) returns (text: string)
    ensures text == FormattedErrors(es)
  {
    var formatted: seq<string> := [];
    for i := 0 to |es|
      invariant |formatted| == i
      invariant forall k :: 0 <= k < i ==> formatted[k] == FormatError(es[k])
    {
      formatted := formatted + [FormatError(es[i])];
    }
    assert formatted == Entries(es);
    text := Join(formatted, ", ");
  }

  lemma EntriesAppend(a: seq<ApiError>, b: seq<ApiError>)
    ensures Entries(a + b) == Entries(a) + Entries(b)
  {
    var l, r := Entries(a + b), Entries(a) + Entries(b);
    forall i | 0 <= i < |a + b|
      ensures l[i] == r[i]
    {
      if i < |a| {
        assert (a + b)[i] == a[i];
      } else {
        assert (a + b)[i] == b[i - |a|];
      }
    }
  }

  /** Formatting is order-preserving: the rendering of a concatenation is the
      rendering of the first list, ", ", then that of the second. No errors
      render as the empty string and one error as its own entry. */
  lemma FormattedErrorsConcat(a: seq<ApiError>, b: seq<ApiError>)
    ensures FormattedErrors([]) == ""
    ensures |a| == 1 ==> FormattedErrors(a) == FormatError(a[0])
    ensures |a| > 0 && |b| > 0 ==>
      FormattedErrors(a + b) == FormattedErrors(a) + ", " + FormattedErrors(b)
  {
    if |a| > 0 && |b| > 0 {
      EntriesAppend(a, b);
      JoinAppend(Entries(a), Entries(b), ", ");
    }
  }

  /** Two errors render as their entries separated by ", ". */
  lemma FormattedPair(a: ApiError, b: ApiError)
    ensures FormattedErrors([a, b]) == FormatError(a) + ", " + FormatError(b)
  {
    FormattedErrorsConcat([a], [b]);
    FormattedErrorsConcat([b], []);
    assert [a] + [b] == [a, b];
  }

  lemma FormatHelloError()
    ensures FormatError(ApiError(1, "hello error")) == "ID: 1 Text: 'hello error'"
  {
    assert IntToDecimal(1) == "1";
  }

  lemma FormatGoodbyeError()
    ensures FormatError(ApiError(2, "goodbye error")) == "ID: 2 Text: 'goodbye error'"
  {
    assert IntToDecimal(2) == "2";
  }

  lemma HelloGoodbyeJoined()
    ensures "ID: 1 Text: 'hello error'" + ", " + "ID: 2 Text: 'goodbye error'"
         == "ID: 1 Text: 'hello error', ID: 2 Text: 'goodbye error'"
  {
    assert "ID: 1 Text: 'hello error'" + ", " == "ID: 1 Text: 'hello error', ";
  }

  /** The two-error rendering pinned by the package's own formatting test. */
  lemma FormatErrorsExample(es: seq<ApiError>)
    requires es == [ApiError(1, "hello error"), ApiError(2, "goodbye error")]
    ensures FormattedErrors(es) == "ID: 1 Text: 'hello error', ID: 2 Text: 'goodbye error'"
  {
    FormattedPair(es[0], es[1]);
    FormatHelloError();
    FormatGoodbyeError();
    HelloGoodbyeJoined();
  }

  /** "s" when at least one element is present. */
  function PluralSuffix(n: nat): string {
    if n > 0 then "s" else ""
  }

  /** How the message for an undecodable error body begins. */
  const UndecodableErrorsLead: string := "unable to decode error response with error: '"

  /** The text of the error `readErrorFromResponse(res, expectedCodes...)` returns. */
  function ErrorText(res: Response, expectedCodes: seq<int>): string {
    match res.asErrors
    case DecodeFailed(reason) =>
      UndecodableErrorsLead + reason + "'. status code was "
        + IntToDecimal(res.statusCode)
    case Decoded(errs) =>
      ExpectedPart(expectedCodes) + ActualPart(res.statusCode) + ErrorsPart(errs)
  }

  /** "expected status code(s) <codes>": the codes joined by ", ". */
  function ExpectedPart(expectedCodes: seq<int>): string {
    "expected status code" + PluralSuffix(|expectedCodes|) + " " + Join(CodeTexts(expectedCodes), ", ")
  }

  /** " but had: <code>". */
  function ActualPart(statusCode: int): string {
    " but had: " + IntToDecimal(statusCode)
  }

  /** " error with error(s) - <formatted errors>". */
  function ErrorsPart(errs: seq<ApiError>): string {
    " error with error" + PluralSuffix(|errs|) + " - " + FormattedErrors(errs)
  }

  function CodeTexts(codes: seq<int>): (r: seq<string>)
    ensures |r| == |codes|
    ensures forall i :: 0 <= i < |codes| ==> r[i] == IntToDecimal(codes[i])
  {
    seq(|codes|, i requires 0 <= i < |codes| => IntToDecimal(codes[i]))
  }

  /** `readErrorFromResponse`: decode the error body, pick the two plural
      suffixes, render the expected codes in a loop, and assemble the message. */
  method ReadErrorFromResponse(res: Response, expectedCodes: seq<int>) returns (message: string)
    ensures message == ErrorText(res, expectedCodes)
  {
    if res.asErrors.DecodeFailed? {
      return UndecodableErrorsLead + res.asErrors.reason
        + "'. status code was " + IntToDecimal(res.statusCode);
    }
    var errs := res.asErrors.value;
    var statusSuffix := "";
    if |expectedCodes| > 0 {
      statusSuffix := "s";
    }
    var errorSuffix := "";
    if |errs| > 0 {
      errorSuffix := "s";
    }
    var codeString: seq<string> := [];
    for i := 0 to |expectedCodes|
      invariant |codeString| == i
      invariant forall k :: 0 <= k < i ==> codeString[k] == IntToDecimal(expectedCodes[k])
    {
      codeString := codeString + [IntToDecimal(expectedCodes[i])];
    }
    assert codeString == CodeTexts(expectedCodes);
    var formattedCodes := Join(codeString, ", ");
    var formattedErrors := FormatErrors(errs);
    var expected := "expected status code" + statusSuffix + " " + formattedCodes;
    var actual := " but had: " + IntToDecimal(res.statusCode);
    var reported := " error with error" + errorSuffix + " - " + formattedErrors;
    message := expected + actual + reported;
  }

  /** "code" is pluralised exactly when at least one expected code is given
      (not when more than one is). */
  lemma ErrorTextCodePlural(res: Response, expectedCodes: seq<int>)
    requires res.asErrors.Decoded?
    ensures var t := ErrorText(res, expectedCodes);
      |t| > 20 && t[..20] == "expected status code" && (t[20] == 's' <==> |expectedCodes| > 0)
  {
    var t := ErrorText(res, expectedCodes);
    var e := ExpectedPart(expectedCodes);
    var h := "expected status code" + PluralSuffix(|expectedCodes|) + " ";
    PrefixOfAppend(h, Join(CodeTexts(expectedCodes), ", "), 21);
    PrefixOfAppend(e, ActualPart(res.statusCode), 21);
    PrefixOfAppend(e + ActualPart(res.statusCode), ErrorsPart(res.asErrors.value), 21);
    assert h[..20] == "expected status code";
    assert h[20] == if |expectedCodes| > 0 then 's' else ' ';
    assert t[..20] == t[..21][..20] && t[20] == t[..21][20];
  }

  lemma Assoc(a: string, b: string, c: string)
    ensures a + (b + c) == (a + b) + c
  {
  }

  /** The first `n` characters of a string stay in front when more is appended. */
  lemma PrefixOfAppend(a: string, b: string, n: nat)
    requires n <= |a|
    ensures (a + b)[..n] == a[..n]
  {
  }

  /** The last `n` characters of a string stay at the end when it is appended to. */
  lemma SuffixOfAppend(a: string, b: string, n: nat)
    requires n < |b|
    ensures |a + b| > n
    ensures (a + b)[|a + b| - n..] == b[|b| - n..]
    ensures (a + b)[|a + b| - n - 1] == b[|b| - n - 1]
  {
    assert (a + b)[|a + b| - n..] == b[|b| - n..];
  }

  /** Where a word ending in 'r' is followed by an optional "s" and a tail. */
  lemma SuffixBeforeTail(head: string, suffix: string, tail: string)
    requires |head| > 0 && head[|head| - 1] == 'r'
    requires suffix == "" || suffix == "s"
    ensures var t := head + suffix + tail;
      |t| > |tail| && t[|t| - |tail|..] == tail
      && (t[|t| - |tail| - 1] == 's' <==> suffix == "s")
  {
    var u := head + suffix;
    assert u[|u| - 1] == (if suffix == "s" then 's' else 'r');
    assert (u + tail)[|u| - 1] == u[|u| - 1];
    assert (u + tail)[|u|..] == tail;
  }

  /** The message ends with " - " and the formatted error list, and the word
      just before is "errors" exactly when the list is non-empty. */
  lemma ErrorTextErrorPlural(res: Response, expectedCodes: seq<int>)
    requires res.asErrors.Decoded?
    ensures var t := ErrorText(res, expectedCodes);
      var tail := " - " + FormattedErrors(res.asErrors.value);
      |t| > |tail| && t[|t| - |tail|..] == tail
      && (t[|t| - |tail| - 1] == 's' <==> |res.asErrors.value| > 0)
  {
    var errs := res.asErrors.value;
    var tail := " - " + FormattedErrors(errs);
    var head := " error with error";
    var r := ErrorsPart(errs);
    assert head[|head| - 1] == 'r';
    Assoc(head + PluralSuffix(|errs|), " - ", FormattedErrors(errs));
    assert r == head + PluralSuffix(|errs|) + tail;
    SuffixBeforeTail(head, PluralSuffix(|errs|), tail);
    var lead := ExpectedPart(expectedCodes) + ActualPart(res.statusCode);
    assert ErrorText(res, expectedCodes) == lead + r;
    SuffixOfAppend(lead, r, |tail|);
  }

  /** A body that does not decode gives the decode-failure message, whatever
      codes were expected, and the actual status code can be read back from
      its end. */
  lemma ErrorTextDecodeFailure(res: Response, expectedCodes: seq<int>, otherCodes: seq<int>)
    requires res.asErrors.DecodeFailed?
    ensures ErrorText(res, expectedCodes) == ErrorText(res, otherCodes)
    ensures var t := ErrorText(res, expectedCodes);
      var code := IntToDecimal(res.statusCode);
      |t| > |code| && t[..31] == "unable to decode error response"
      && ParseDecimal(t[|t| - |code|..]) == res.statusCode
  {
    var t := ErrorText(res, expectedCodes);
    var code := IntToDecimal(res.statusCode);
    var head := UndecodableErrorsLead + res.asErrors.reason
      + "'. status code was ";
    assert t == head + code;
    assert t[|t| - |code|..] == code;
    assert t[..31] == head[..31];
    IntDecimalRoundTrip(res.statusCode);
  }

  lemma Decimal400()
    ensures IntToDecimal(400) == "400"
  {
    assert NatToDecimal(40) == "40";
  }

  lemma FormatBadError()
    ensures FormatError(ApiError(1, "bad error")) == "ID: 1 Text: 'bad error'"
  {
    assert IntToDecimal(1) == "1";
  }

  lemma FormatWorseError()
    ensures FormatError(ApiError(2, "worse error")) == "ID: 2 Text: 'worse error'"
  {
    assert IntToDecimal(2) == "2";
  }

  lemma DecimalTwoHundreds()
    ensures IntToDecimal(201) == "201" && IntToDecimal(202) == "202"
  {
    assert NatToDecimal(20) == "20";
  }

  lemma CodesTwoHundredOneTwo(codes: seq<int>)
    requires codes == [201, 202]
    ensures Join(CodeTexts(codes), ", ") == "201, 202"
  {
    DecimalTwoHundreds();
    assert CodeTexts(codes) == ["201", "202"];
  }

  lemma ExpectedTwoHundredOneTwo(codes: seq<int>)
    requires codes == [201, 202]
    ensures ExpectedPart(codes) == "expected status codes 201, 202"
  {
    CodesTwoHundredOneTwo(codes);
    assert "expected status code" + "s" + " " == "expected status codes ";
    assert "expected status codes " + "201, 202" == "expected status codes 201, 202";
  }

  lemma ActualFourHundred()
    ensures ActualPart(400) == " but had: 400"
  {
    Decimal400();
  }

  lemma ReportedBadWorse(errs: seq<ApiError>)
    requires errs == [ApiError(1, "bad error"), ApiError(2, "worse error")]
    ensures ErrorsPart(errs) == " error with errors - " + "ID: 1 Text: 'bad error', ID: 2 Text: 'worse error'"
  {
    FormattedPair(errs[0], errs[1]);
    FormatBadError();
    FormatWorseError();
    BadWorseJoined();
    assert " error with error" + "s" + " - " == " error with errors - ";
  }

  lemma BadWorseJoined()
    ensures "ID: 1 Text: 'bad error'" + ", " + "ID: 2 Text: 'worse error'"
         == "ID: 1 Text: 'bad error', ID: 2 Text: 'worse error'"
  {
    assert "ID: 1 Text: 'bad error'" + ", " == "ID: 1 Text: 'bad error', ";
  }

  /** The message pinned by the package's test of a 400 answer, carrying two
      errors, to a request that expected 201 or 202. */
  lemma ReadErrorFromResponseExample(res: Response, expectedCodes: seq<int>)
    requires res.statusCode == 400
    requires res.asErrors == Decoded([ApiError(1, "bad error"), ApiError(2, "worse error")])
    requires expectedCodes == [201, 202]
    ensures ErrorText(res, expectedCodes)
      == "expected status codes 201, 202" + " but had: 400" + " error with errors - "
         + "ID: 1 Text: 'bad error', ID: 2 Text: 'worse error'"
  {
    ExpectedTwoHundredOneTwo(expectedCodes);
    ActualFourHundred();
    ReportedBadWorse(res.asErrors.value);
    Assoc("expected status codes 201, 202" + " but had: 400", " error with errors - ",
      "ID: 1 Text: 'bad error', ID: 2 Text: 'worse error'");
  }

  /** The shape pinned by the package's test of an undecodable error body:
      the decoder's own message in quotes, then the actual status code. */
  lemma ReadErrorFromResponseBadJsonExample(reason: string, location: string, db: Decoded<Database>, dbs: Decoded<seq<Database>>)
    ensures ErrorText(Response(400, location, DecodeFailed(reason), db, dbs), [201, 202])
      == "unable to decode error response with error: '" + reason + "'. status code was 400"
  {
    Decimal400();
    assert "'. status code was " + "400" == "'. status code was 400";
  }
}

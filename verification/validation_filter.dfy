/** The pure part of `ValidationExceptionFilter.catch`: the `message` and
    `errors` of the JSON body, and `extractFieldFromError`, the
    `/^(\w+)\s/` match that names the offending field. */
module ValidationFilter {
  import opened Wrappers

  /** `\w` in a JavaScript regular expression without the `u` flag. */
  predicate IsWordChar(c: char) {
    ('a' <= c <= 'z') || ('A' <= c <= 'Z') || ('0' <= c <= '9') || c == '_'
  }

  /** `\s` in a JavaScript regular expression: the ECMAScript WhiteSpace and
      LineTerminator characters. */
  predicate IsSpace(c: char) {
    || c == ' ' || c == '\t' || c == '\n' || c == '\r'
    || c == '\U{000B}' || c == '\U{000C}' || c == '\U{00A0}' || c == '\U{1680}'
    || ('\U{2000}' <= c <= '\U{200A}')
    || c == '\U{2028}' || c == '\U{2029}' || c == '\U{202F}' || c == '\U{205F}'
    || c == '\U{3000}' || c == '\U{FEFF}'
  }

  /** `/^(\w+)\s/` matches `s` with group 1 equal to `s[..k]`. */
  predicate MatchesAt(s: string, k: int) {
    && 0 < k < |s|
    && (forall i :: 0 <= i < k ==> IsWordChar(s[i]))
    && IsSpace(s[k])
  }

  /** The regular expression has at most one match: a word character is
      never a space, so only the end of the word run can be followed by one. */
  lemma MatchUnique(s: string, k: int, k': int)
    requires MatchesAt(s, k) && MatchesAt(s, k')
    ensures k == k'
  {
    WordIsNotSpace();
  }

  lemma WordIsNotSpace()
    ensures forall c :: IsWordChar(c) ==> !IsSpace(c)
  {
  }

  /** The end of the run of word characters starting at `from`. */
  function WordRunEnd(s: string, from: nat): (n: nat)
    requires from <= |s|
    ensures from <= n <= |s|
    ensures forall i :: from <= i < n ==> IsWordChar(s[i])
    ensures n == |s| || !IsWordChar(s[n])
    decreases |s| - from
  {
    if from == |s| || !IsWordChar(s[from]) then from else WordRunEnd(s, from + 1)
  }

  /** `extractFieldFromError`: the matched field name, or `"unknown"` when
      the message does not start with a word followed by whitespace. */
  function ExtractFieldFromError(error: string): (field: string)
    ensures (exists k :: MatchesAt(error, k)) ==>
      exists k :: MatchesAt(error, k) && field == error[..k]
    ensures (forall k :: !MatchesAt(error, k)) ==> field == "unknown"
  {
    var n := WordRunEnd(error, 0);
    if 0 < n < |error| && IsSpace(error[n]) then
      assert MatchesAt(error, n);
      error[..n]
    else
      assert forall k :: !MatchesAt(error, k) by {
        WordIsNotSpace();
        forall k
          ensures !MatchesAt(error, k)
        {
          if n < k < |error| {
            assert !IsWordChar(error[n]);
          }
        }
      }
      "unknown"
  }

  /** `exception.getResponse()`: a plain string, or an object whose
      `message` is absent or falsy, a string, or the array of
      class-validator messages. */
  datatype MessageField = NoMessage | Text(text: string) | Messages(items: seq<string>)

  datatype ExceptionResponse = StringResponse(body: string) | ObjectResponse(message: MessageField)

  /** The body's `message`: a string, or the array passed through. */
  datatype Message = Line(line: string) | Lines(lines: seq<string>)

  datatype FieldError = FieldError(field: string, message: string)

  /** The response body without `statusCode`, `timestamp`, `path` and
      `method`. `errors` is `None` when the key is left out. */
  datatype ErrorBody = ErrorBody(error: string, message: Message, errors: Option<seq<FieldError>>)

  const DefaultMessage: string := "Validation failed"

  /** One entry per validation message, in order. */
  function FieldErrors(messages: seq<string>): (errors: seq<FieldError>)
    ensures |errors| == |messages|
    ensures forall i :: 0 <= i < |messages| ==>
      errors[i] == FieldError(ExtractFieldFromError(messages[i]), messages[i])
  {
    seq(|messages|, i requires 0 <= i < |messages| => FieldError(ExtractFieldFromError(messages[i]), messages[i]))
  }

  /** `responseObj.message || 'Validation failed'`: an empty string is falsy,
      an array (even an empty one) is not. */
  function MessageOf(m: MessageField): Message {
    match m
    case NoMessage => Line(DefaultMessage)
    case Text(t) => if t == "" then Line(DefaultMessage) else Line(t)
    case Messages(items) => Lines(items)
  }

  /** The `message` and `errors` the filter writes. */
  function Body(response: ExceptionResponse): (b: ErrorBody)
    ensures b.error == "Validation Error"
    ensures response.StringResponse? ==> b.message == Line(response.body) && b.errors.None?
    ensures response.ObjectResponse? && response.message.Messages? ==>
      var items := response.message.items;
      && b.message == Lines(items)
      && (b.errors.Some? <==> |items| > 0)
      && (|items| > 0 ==> b.errors == Some(FieldErrors(items)))
    ensures response.ObjectResponse? && !response.message.Messages? ==> b.errors.None?
    ensures response.ObjectResponse? && response.message.Text? && response.message.text != "" ==>
      b.message == Line(response.message.text)
    ensures response.ObjectResponse? && (response.message.NoMessage? || response.message == Text("")) ==>
      b.message == Line(DefaultMessage)
    ensures b.errors.Some? ==> |b.errors.value| > 0
  {
    match response
    case StringResponse(body) => ErrorBody("Validation Error", Line(body), None)
    case ObjectResponse(m) =>
      var errors := if m.Messages? then FieldErrors(m.items) else [];
      ErrorBody("Validation Error", MessageOf(m), if |errors| > 0 then Some(errors) else None)
  }

  /** class-validator's messages start with the property name, so each
      entry names its field; a message opening with punctuation does not. */
  lemma FieldExamples()
    ensures ExtractFieldFromError("email must be an email") == "email"
    ensures ExtractFieldFromError("password is too short") == "password"
    ensures ExtractFieldFromError("") == "unknown"
    ensures ExtractFieldFromError("email") == "unknown"
    ensures ExtractFieldFromError("-x y") == "unknown"
  {
    assert MatchesAt("email must be an email", 5);
    MatchUniqueAll("email must be an email", 5);
    var p := "password is too short";
    assert p[8] == ' ';
    assert MatchesAt(p, 8);
    MatchUniqueAll(p, 8);
    assert forall k :: !MatchesAt("email", k);
    assert forall k :: !MatchesAt("-x y", k) by {
      assert !IsWordChar("-x y"[0]);
    }
  }

  lemma MatchUniqueAll(s: string, k: int)
    requires MatchesAt(s, k)
    ensures forall k' :: MatchesAt(s, k') ==> k' == k
  {
    forall k' | MatchesAt(s, k')
      ensures k' == k
    {
      MatchUnique(s, k, k');
    }
  }
}

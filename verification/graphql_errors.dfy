/** The GraphQL error normaliser (`getGraphQLErrors`): turns a parsed response
    body into no error (`None`) or one normalised error. */
module GraphQLErrors {
  import opened Wrappers
  import opened Json

  /** The error record the wrapper throws. */
  datatype NormalizedError = NormalizedError(message: string, statusCode: StatusCode)

  /** The error reported for a falsy body. */
  const UnknownError := NormalizedError("Unknown error", Str("INTERNAL_SERVER_ERROR"))

  /** The status code used when the first error carries no truthy code. */
  const FallbackStatus := Num(500)

  /** `error?.message` as `Array.prototype.join` renders it: a missing message becomes `""`. */
  function MessageText(e: GraphQLError): string {
    e.message.GetOr("")
  }

  /** The error contributes at least one character to the joined messages. */
  predicate HasMessage(e: GraphQLError) {
    e.message.Some? && e.message.value != ""
  }

  /** `errors.map(e => e?.message).join("")`: the messages in list order, no delimiter. */
  function JoinedMessages(errs: seq<GraphQLError>): string {
    if errs == [] then "" else MessageText(errs[0]) + JoinedMessages(errs[1..])
  }

  /** `errors?.[0]?.extensions?.code || 500` */
  function StatusOf(errs: seq<GraphQLError>): StatusCode {
    if |errs| > 0 && errs[0].Code().Some? && TruthyCode(errs[0].Code().value)
    then errs[0].Code().value
    else FallbackStatus
  }

  /** `messages || JSON.stringify(errors)` */
  function MessageOf(errs: seq<GraphQLError>): string {
    var joined := JoinedMessages(errs);
    if joined != "" then joined else StringifyErrors(errs)
  }

  /** `getGraphQLErrors(body)`. */
  function GetGraphQLErrors(body: Body): (r: Option<NormalizedError>)
    // a falsy body is always the fixed "Unknown error"
    ensures body.Falsy? ==> r == Some(UnknownError)
    // no error exactly for a truthy body without an "errors" key
    ensures r.None? <==> body.Object? && body.errors.Absent?
    // `errors: null` serialises to "null" and has no code
    ensures body == Object(Null) ==> r == Some(NormalizedError("null", FallbackStatus))
    // some error carries a non-empty message: the message is the concatenation
    ensures body.Object? && body.errors.List? ==>
              ((exists i :: 0 <= i < |body.errors.errors| && HasMessage(body.errors.errors[i])) ==>
                 r.Some? && r.value.message == JoinedMessages(body.errors.errors))
    // no error carries a non-empty message: the message is the serialised list
    ensures body.Object? && body.errors.List? ==>
              ((forall i :: 0 <= i < |body.errors.errors| ==> !HasMessage(body.errors.errors[i])) ==>
                 r.Some? && r.value.message == StringifyErrors(body.errors.errors))
    // the status code comes from the first error only
    ensures body.Object? && body.errors.List? ==>
              r.Some? && r.value.statusCode ==
                (var errs := body.errors.errors;
                 if |errs| > 0 && errs[0].Code().Some? && TruthyCode(errs[0].Code().value)
                 then errs[0].Code().value else Num(500))
    // whatever is returned has a non-empty message and a truthy status code
    ensures r.Some? ==> r.value.message != "" && TruthyCode(r.value.statusCode)
  {
    match body
    case Falsy => Some(UnknownError)
    case Object(Absent) => None
    case Object(Null) => Some(NormalizedError("null", FallbackStatus))
    case Object(List(errs)) =>
      JoinedEmptyIffNoMessage(errs);
      Some(NormalizedError(MessageOf(errs), StatusOf(errs)))
  }

  /** The joined messages are empty exactly when no error has a non-empty message. */
  lemma {:induction false} JoinedEmptyIffNoMessage(errs: seq<GraphQLError>)
    ensures JoinedMessages(errs) == "" <==> forall i :: 0 <= i < |errs| ==> !HasMessage(errs[i])
  {
    if errs != [] {
      JoinedEmptyIffNoMessage(errs[1..]);
      assert forall i :: 1 <= i < |errs| ==> errs[i] == errs[1..][i - 1];
    }
  }

  /** Joining distributes over list concatenation: messages keep list order. */
  lemma {:induction false} JoinedMessagesAppend(a: seq<GraphQLError>, b: seq<GraphQLError>)
    ensures JoinedMessages(a + b) == JoinedMessages(a) + JoinedMessages(b)
  {
    if a == [] {
      assert a + b == b;
    } else {
      assert (a + b)[1..] == a[1..] + b;
      JoinedMessagesAppend(a[1..], b);
    }
  }

  /** Each error's message text occurs in the joined messages, at the offset
      given by the messages before it. */
  lemma JoinedMessagesContainsEach(errs: seq<GraphQLError>, i: nat)
    requires i < |errs|
    ensures var before := |JoinedMessages(errs[..i])|;
            var m := MessageText(errs[i]);
            before + |m| <= |JoinedMessages(errs)| &&
            JoinedMessages(errs)[before .. before + |m|] == m
  {
    assert errs == errs[..i] + ([errs[i]] + errs[i + 1..]);
    JoinedMessagesAppend(errs[..i], [errs[i]] + errs[i + 1..]);
    JoinedMessagesAppend([errs[i]], errs[i + 1..]);
    assert JoinedMessages([errs[i]]) == MessageText(errs[i]) by {
      assert [errs[i]][1..] == [];
    }
  }

  /** Errors after the first never influence the status code. */
  lemma LaterCodesIgnored(e: GraphQLError, rest1: seq<GraphQLError>, rest2: seq<GraphQLError>)
    ensures var r1 := GetGraphQLErrors(Object(List([e] + rest1)));
            var r2 := GetGraphQLErrors(Object(List([e] + rest2)));
            r1.Some? && r2.Some? && r1.value.statusCode == r2.value.statusCode
  {
  }

  /** An empty error list is reported with the serialised list "[]" and status 500. */
  lemma EmptyErrorList()
    ensures GetGraphQLErrors(Object(List([]))) == Some(NormalizedError("[]", Num(500)))
  {
  }

  /** Worked examples of the normaliser. */
  lemma Examples()
    ensures GetGraphQLErrors(Object(List([GraphQLError(Some("bad"), Some(Extensions(Some(Str("BAD_INPUT")))))])))
            == Some(NormalizedError("bad", Str("BAD_INPUT")))
    ensures GetGraphQLErrors(Object(List([GraphQLError(Some("a"), None), GraphQLError(Some("b"), None)])))
            == Some(NormalizedError("ab", Num(500)))
    ensures GetGraphQLErrors(Object(List([GraphQLError(Some("x"), Some(Extensions(Some(Str("")))))])))
            == Some(NormalizedError("x", Num(500)))
    ensures GetGraphQLErrors(Object(List([GraphQLError(None, None)]))) == Some(NormalizedError("[{}]", Num(500)))
  {
    var bad := GraphQLError(Some("bad"), Some(Extensions(Some(Str("BAD_INPUT")))));
    assert [bad][1..] == [];
    assert JoinedMessages([bad]) == "bad";
    var x := GraphQLError(Some("x"), Some(Extensions(Some(Str("")))));
    assert [x][1..] == [];
    assert JoinedMessages([x]) == "x";
    var a, b := GraphQLError(Some("a"), None), GraphQLError(Some("b"), None);
    assert [a, b][1..] == [b] && [b][1..] == [];
    assert JoinedMessages([a, b]) == "ab";
    var none := GraphQLError(None, None);
    assert [none][1..] == [];
    assert JoinedMessages([none]) == "";
    assert ErrorMembers(none) == [];
    assert ErrorText(none) == "{}";
    assert ErrorTexts([none]) == ["{}"];
    assert StringifyErrors([none]) == "[{}]";
  }
}

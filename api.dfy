/** `sendMessageToApi`: the conversation's transcript and loading flag, and how one submission
    changes them. The HTTP exchange is an abstract `Outcome` supplied by the caller, and the
    `Date.now()` ids are parameters. */
module Api {
  import opened Types
  import opened Strings

  const LOADING_CONTENT := "..."
  const PARSE_FAILURE := "Failed to parse error response."
  const UNEXPECTED_ERROR := "An unexpected error occurred."
  const REQUEST_FAILED := "API request failed: "

  /** What `res.json()` yields: the parsed object's `response` and optional `error` fields, or
      the message of the exception parsing raised. */
  datatype Body = Json(response: string, error: Option<string>) | Malformed(parseError: string)

  /** How `fetch` settles: it rejects with an error message, or it resolves to a response. */
  datatype Outcome =
    | FetchFailed(message: string)
    | Response(status: nat, statusText: string, body: Body)

  /** `res.ok` as the Fetch standard defines it: a status in 200..299. */
  predicate IsOk(status: nat)
  {
    200 <= status <= 299
  }

  /** The text of the error thrown for a response that is not ok. The body's `error` field wins when
      it is a non-empty string; otherwise the status line is used; a body that does not parse
      stands in with a fixed text. */
  function NotOkErrorText(status: nat, statusText: string, body: Body): (r: string)
    ensures r != ""
    ensures body.Malformed? ==> r == PARSE_FAILURE
    ensures body.Json? && body.error.Some? && body.error.value != "" ==> r == body.error.value
  {
    match body
    case Malformed(_) => PARSE_FAILURE
    case Json(_, error) =>
      if error.Some? && error.value != "" then error.value
      else REQUEST_FAILED + statusText + " (" + NatToDecimal(status) + ")"
  }

  /** When the body names no error, the error text is the fixed prefix, the status text, and the
      status in plain decimal between parentheses; the digits read back to the status. */
  lemma StatusLineReadsBack(status: nat, statusText: string, response: string, error: Option<string>)
    requires error.None? || error.value == ""
    ensures var r := NotOkErrorText(status, statusText, Json(response, error));
      var digitsAt := |REQUEST_FAILED| + |statusText| + 2;
      r[..|REQUEST_FAILED|] == REQUEST_FAILED
      && r[|REQUEST_FAILED|..|REQUEST_FAILED| + |statusText|] == statusText
      && digitsAt < |r| - 1 && r[digitsAt - 2..digitsAt] == " (" && r[|r| - 1] == ')'
      && r[digitsAt..|r| - 1] == NatToDecimal(status)
      && (forall k :: digitsAt <= k < |r| - 1 ==> IsDigit(r[k]))
      && DecimalValue(r[digitsAt..|r| - 1]) == status
  {
    var r := NotOkErrorText(status, statusText, Json(response, error));
    var digits := NatToDecimal(status);
    assert r == REQUEST_FAILED + statusText + " (" + digits + ")";
    var digitsAt := |REQUEST_FAILED| + |statusText| + 2;
    assert r[digitsAt..|r| - 1] == digits;
    DecimalRoundTrip(status);
  }

  /** The content of the `error` entry: the thrown message, or a fixed text when it is empty. */
  function ErrorContent(thrown: string): (r: string)
    ensures r != ""
    ensures thrown != "" ==> r == thrown
    ensures thrown == "" ==> r == UNEXPECTED_ERROR
  {
    if thrown != "" then thrown else UNEXPECTED_ERROR
  }

  /** The entry that ends a submission: a `model` reply when the response is ok and its body parses,
      an `error` entry otherwise. */
  function Reply(outcome: Outcome, id: int): (m: Message)
    ensures m.id == id
    ensures m.role == Model <==> outcome.Response? && IsOk(outcome.status) && outcome.body.Json?
    ensures m.role == Model ==> m.content == outcome.body.response
    ensures m.role != Model ==> m.role == Error && m.content != ""
    ensures outcome.FetchFailed? ==> m.content == ErrorContent(outcome.message)
    ensures outcome.Response? && IsOk(outcome.status) && outcome.body.Malformed?
            ==> m.content == ErrorContent(outcome.body.parseError)
  {
    match outcome
    case FetchFailed(message) => Message(id, Error, ErrorContent(message))
    case Response(status, statusText, body) =>
      if !IsOk(status) then Message(id, Error, ErrorContent(NotOkErrorText(status, statusText, body)))
      else match body
        case Json(response, _) => Message(id, Model, response)
        case Malformed(parseError) => Message(id, Error, ErrorContent(parseError))
  }

  /** On a response that is not ok, the error entry carries the chosen error text itself: the
      generic fallback is never used on that path. */
  lemma NotOkReplyCarriesErrorText(status: nat, statusText: string, body: Body, id: int)
    requires !IsOk(status)
    ensures Reply(Response(status, statusText, body), id)
         == Message(id, Error, NotOkErrorText(status, statusText, body))
  {
  }

  predicate NoLoading(s: seq<Message>)
  {
    forall i :: 0 <= i < |s| ==> s[i].role != Loading
  }

  /** `prev.filter((msg) => msg.role !== 'loading')`. */
  function RemoveLoading(s: seq<Message>): (r: seq<Message>)
    ensures NoLoading(r)
    ensures forall m :: m in r <==> m in s && m.role != Loading
  {
    if s == [] then []
    else if s[0].role == Loading then RemoveLoading(s[1..])
    else [s[0]] + RemoveLoading(s[1..])
  }

  /** The filter works entry by entry: it distributes over concatenation. With the one-entry case
      this fixes the result completely, relative order included. */
  lemma {:induction false} RemoveLoadingConcat(a: seq<Message>, b: seq<Message>)
    ensures RemoveLoading(a + b) == RemoveLoading(a) + RemoveLoading(b)
  {
    if a == [] {
      assert a + b == b;
    } else {
      var ab := a + b;
      assert ab[0] == a[0] && ab[1..] == a[1..] + b;
      RemoveLoadingConcat(a[1..], b);
      if a[0].role != Loading {
        calc {
          RemoveLoading(ab);
          [a[0]] + RemoveLoading(a[1..] + b);
          [a[0]] + (RemoveLoading(a[1..]) + RemoveLoading(b));
          ([a[0]] + RemoveLoading(a[1..])) + RemoveLoading(b);
        }
      }
    }
  }

  lemma RemoveLoadingSingle(m: Message)
    ensures RemoveLoading([m]) == if m.role == Loading then [] else [m]
  {
    assert [m][1..] == [];
  }

  /** A transcript without `loading` entries is left as it is. */
  lemma {:induction false} RemoveLoadingKeeps(s: seq<Message>)
    requires NoLoading(s)
    ensures RemoveLoading(s) == s
  {
    if s != [] {
      RemoveLoadingKeeps(s[1..]);
      assert [s[0]] + s[1..] == s;
    }
  }

  /** Filtering twice, as the failure path does, is filtering once. */
  lemma RemoveLoadingIdempotent(s: seq<Message>)
    ensures RemoveLoading(RemoveLoading(s)) == RemoveLoading(s)
  {
    RemoveLoadingKeeps(RemoveLoading(s));
  }

  /** The two entries a submission starts with: the message, whose id is the first clock reading
      `now`, and the placeholder, whose id is one more than the second reading `later`. */
  function Started(prev: seq<Message>, content: string, role: Role, now: int, later: int): seq<Message>
  {
    prev + [Message(now, role, content), Message(later + 1, Loading, LOADING_CONTENT)]
  }

  /** The transcript once a submission has settled: the placeholders gone, then its final entry. */
  function Settled(prev: seq<Message>, outcome: Outcome, replyId: int): seq<Message>
  {
    RemoveLoading(prev) + [Reply(outcome, replyId)]
  }

  /** A settled transcript holds no `loading` entry and ends with the reply, after every earlier
      non-`loading` entry in order. */
  lemma SettledShape(prev: seq<Message>, outcome: Outcome, replyId: int)
    ensures var r := Settled(prev, outcome, replyId);
      NoLoading(r) && |r| >= 1 && r[|r| - 1] == Reply(outcome, replyId)
      && r[..|r| - 1] == RemoveLoading(prev)
  {
    var r := Settled(prev, outcome, replyId);
    assert r[..|r| - 1] == RemoveLoading(prev);
  }

  /** A whole submission, start to end: the earlier non-`loading` entries, the submitted message
      (unless it was itself sent with role `loading`), then the reply. */
  lemma {:induction false} SubmissionTranscript(prev: seq<Message>, content: string, role: Role, now: int,
                                                later: int, outcome: Outcome, replyId: int)
    ensures Settled(Started(prev, content, role, now, later), outcome, replyId)
         == RemoveLoading(prev)
            + (if role == Loading then [] else [Message(now, role, content)])
            + [Reply(outcome, replyId)]
  {
    var sent := Message(now, role, content);
    var placeholder := Message(later + 1, Loading, LOADING_CONTENT);
    assert Started(prev, content, role, now, later) == (prev + [sent]) + [placeholder];
    RemoveLoadingConcat(prev + [sent], [placeholder]);
    RemoveLoadingConcat(prev, [sent]);
    RemoveLoadingSingle(sent);
    RemoveLoadingSingle(placeholder);
  }

  /** The state `sendMessageToApi` drives through its setters: the transcript and the loading flag. */
  class Conversation {
    var messages: seq<Message>
    var isLoading: bool

    constructor ()
      ensures messages == [] && !isLoading
    {
      messages := [];
      isLoading := false;
    }

    /** Lines 9-12: raise the flag, then append the message and its placeholder in one update.
        `now` and `later` are the two readings of the clock, in that order. */
    method BeginSend(content: string, role: Role, now: int, later: int)
      modifies this
      ensures isLoading
      ensures messages == Started(old(messages), content, role, now, later)
    {
      isLoading := true;
      var sent := Message(now, role, content);
      var placeholder := Message(later + 1, Loading, LOADING_CONTENT);
      messages := messages + [sent, placeholder];
    }

    /** Lines 14-43: once `fetch` settles, drop the placeholders and append the reply or the error;
        the `finally` clears the flag whatever happened. */
    method SettleSend(outcome: Outcome, replyId: int)
      modifies this
      ensures !isLoading
      ensures messages == Settled(old(messages), outcome, replyId)
      ensures NoLoading(messages)
    {
      var thrown: Option<string> := None;
      if outcome.FetchFailed? {
        thrown := Some(outcome.message);
      } else {
        messages := RemoveLoading(messages);
        if !IsOk(outcome.status) {
          thrown := Some(NotOkErrorText(outcome.status, outcome.statusText, outcome.body));
        } else if outcome.body.Malformed? {
          thrown := Some(outcome.body.parseError);
        } else {
          messages := messages + [Message(replyId, Model, outcome.body.response)];
        }
      }
      if thrown.Some? {
        RemoveLoadingIdempotent(old(messages));
        messages := RemoveLoading(messages);
        messages := messages + [Message(replyId, Error, ErrorContent(thrown.value))];
      }
      isLoading := false;
      SettledShape(old(messages), outcome, replyId);
    }

    /** `sendMessageToApi(content, role)`: the whole submission, run to its end. */
    method SendMessageToApi(content: string, role: Role, now: int, later: int, outcome: Outcome, replyId: int)
      modifies this
      ensures !isLoading
      ensures messages == Settled(Started(old(messages), content, role, now, later), outcome, replyId)
      ensures NoLoading(messages)
    {
      BeginSend(content, role, now, later);
      SettleSend(outcome, replyId);
    }
  }
}

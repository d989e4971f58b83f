/**
 * The bot's main routine: start-up, then polling cycles. Fetching the status
 * API and sending to the chat are outside the model: a cycle is given what the
 * fetch produced, and every message the bot hands to the sender is appended to
 * an outbox, since a failed delivery is swallowed and never reaches the bot.
 */
module Poller {
  import opened Wrappers
  import opened PyValue
  import opened Homework

  /** What fetching the API produced: the decoded reply (`None` is `JNull`), or an exception. */
  datatype FetchOutcome = Fetched(body: Json) | FetchRaised(error: PyError)

  /** The answer the API gives to the `k`-th request, made with `from_date` `t`. */
  type Server = (nat, int) -> FetchOutcome

  /** How far back, in seconds, the first and every later request looks. */
  const StartOffset := 1500000

  const StartText := "Start"
  const FailurePrefix := "Сбой в работе программы: "
  const FatalNote := "Переменная(ые) окружения отсутствует(ют)."

  /** The message the bot sends when a cycle raised `e`. */
  function FailureMessage(e: PyError): (m: string)
    ensures IsFailureMessage(m) && !IsStatusMessage(m)
    ensures m[|FailurePrefix|..] == ErrorText(e)
  {
    var m := FailurePrefix + ErrorText(e);
    assert m[0] == FailurePrefix[0] != StatusPrefix[0];
    m
  }

  predicate IsFailureMessage(m: string) {
    |m| >= |FailurePrefix| && m[..|FailurePrefix|] == FailurePrefix
  }

  predicate IsStatusMessage(m: string) {
    |m| >= |StatusPrefix| && m[..|StatusPrefix|] == StatusPrefix
  }

  /** A `KeyError` whose argument is plain text is reported with that text in single quotes. */
  lemma PlainKeyErrorMessage(key: string)
    requires AllPlain(key)
    ensures FailureMessage(KeyError(Some(key))) == FailurePrefix + "'" + key + "'"
  {
    PlainStrRepr(key);
  }

  /** The reply held a list of submissions, and it was empty. */
  predicate Quiet(fetch: FetchOutcome) {
    fetch.Fetched? && CheckResponse(fetch.body) == Success([])
  }

  /** The first submission of a well-shaped, non-empty reply. */
  function FirstRecord(fetch: FetchOutcome): Option<Json> {
    if fetch.Fetched? && CheckResponse(fetch.body).Success? && CheckResponse(fetch.body).value != []
    then Some(CheckResponse(fetch.body).value[0])
    else None
  }

  /** The cycle parses its first submission successfully. */
  predicate Delivers(fetch: FetchOutcome) {
    FirstRecord(fetch).Some? && ParseStatus(FirstRecord(fetch).value).Success?
  }

  /**
   * The messages one polling cycle sends: none for an empty submission list,
   * the status text of the first submission only, or one failure message for
   * whatever the fetch, the reply check or the parse raised.
   */
  function CycleMessages(fetch: FetchOutcome): (r: seq<string>)
    ensures |r| <= 1
    ensures r == [] <==> Quiet(fetch)
    ensures Delivers(fetch) ==> r == [ParseStatus(FirstRecord(fetch).value).value]
    ensures Delivers(fetch) ==> IsStatusMessage(r[0])
    ensures !Delivers(fetch) && !Quiet(fetch) ==> |r| == 1 && IsFailureMessage(r[0])
    ensures fetch.FetchRaised? ==> r == [FailureMessage(fetch.error)]
    ensures fetch.Fetched? && CheckResponse(fetch.body).Failure?
            ==> r == [FailureMessage(CheckResponse(fetch.body).error)]
    ensures FirstRecord(fetch).Some? && ParseStatus(FirstRecord(fetch).value).Failure?
            ==> r == [FailureMessage(ParseStatus(FirstRecord(fetch).value).error)]
  {
    match fetch
    case FetchRaised(e) => [FailureMessage(e)]
    case Fetched(response) =>
      match CheckResponse(response)
      case Failure(e) => [FailureMessage(e)]
      case Success(homework) =>
        if homework == [] then []
        else match ParseStatus(homework[0])
          case Failure(e) => [FailureMessage(e)]
          case Success(message) => [message]
  }

  /** Two well-shaped replies with the same first submission produce the same messages. */
  lemma OnlyFirstRecordMatters(a: Json, b: Json)
    requires CheckResponse(a).Success? && CheckResponse(b).Success?
    requires CheckResponse(a).value != [] && CheckResponse(b).value != []
    requires CheckResponse(a).value[0] == CheckResponse(b).value[0]
    ensures CycleMessages(Fetched(a)) == CycleMessages(Fetched(b))
  {
  }

  /**
   * One pass of the `while True` body: fetch result in hand, check the reply,
   * parse and send the first submission if there is one; anything raised on the
   * way is sent as one failure message instead.
   */
  method PollOnce(fetch: FetchOutcome) returns (sent: seq<string>)
    ensures sent == CycleMessages(fetch)
  {
    sent := [];
    var error: Option<PyError> := None;
    match fetch {
      case FetchRaised(e) =>
        error := Some(e);
      case Fetched(response) =>
        var checked := CheckResponse(response);
        if checked.Failure? {
          error := Some(checked.error);
        } else {
          var homework := checked.value;
          if homework != [] {
            var parsed := ParseStatus(homework[0]);
            if parsed.Failure? {
              error := Some(parsed.error);
            } else {
              sent := sent + [parsed.value];
            }
          }
        }
    }
    if error.Some? {
      sent := sent + [FailureMessage(error.value)];
    }
  }

  /** The messages of the first `n` cycles, every request made with `from_date` `timestamp`. */
  function Transcript(server: Server, timestamp: int, n: nat): (r: seq<string>)
    ensures |r| <= n
  {
    if n == 0 then []
    else Transcript(server, timestamp, n - 1) + CycleMessages(server(n - 1, timestamp))
  }

  /**
   * Nothing is remembered between cycles: when the API gives the same answer
   * every time, the bot sends the same message every cycle, be it a failure
   * or an unchanged status.
   */
  lemma {:induction false} SameAnswerSameMessages(server: Server, timestamp: int, n: nat, fetch: FetchOutcome)
    requires forall k: nat :: k < n ==> server(k, timestamp) == fetch
    ensures CycleMessages(fetch) == [] ==> Transcript(server, timestamp, n) == []
    ensures |CycleMessages(fetch)| == 1 ==>
      Transcript(server, timestamp, n) == seq(n, _ => CycleMessages(fetch)[0])
  {
    if n > 0 {
      SameAnswerSameMessages(server, timestamp, n - 1, fetch);
    }
  }

  /** Every message of a run of cycles is a status text or a failure message. */
  lemma {:induction false} TranscriptMessagesClassified(server: Server, timestamp: int, n: nat)
    ensures forall m :: m in Transcript(server, timestamp, n) ==> IsStatusMessage(m) || IsFailureMessage(m)
  {
    if n > 0 {
      TranscriptMessagesClassified(server, timestamp, n - 1);
      var last := CycleMessages(server(n - 1, timestamp));
      assert forall m :: m in last ==> IsStatusMessage(m) || IsFailureMessage(m) by {
        if last != [] {
          assert last == [last[0]];
        }
      }
    }
  }

  /**
   * The `while True` loop of `main`, stopped after `cycles` cycles: every
   * request uses the start-up `timestamp`, which the loop never reassigns, and
   * each cycle sends what `CycleMessages` says for the answer it got.
   */
  method PollLoop(server: Server, timestamp: int, cycles: nat) returns (sent: seq<string>, queries: seq<int>)
    ensures |queries| == cycles
    ensures forall k :: 0 <= k < |queries| ==> queries[k] == timestamp
    ensures sent == Transcript(server, timestamp, cycles)
    ensures |sent| <= cycles
  {
    sent, queries := [], [];
    var k := 0;
    while k < cycles
      invariant 0 <= k <= cycles
      invariant |queries| == k
      invariant forall j :: 0 <= j < k ==> queries[j] == timestamp
      invariant sent == Transcript(server, timestamp, k)
    {
      var response := server(k, timestamp);
      queries := queries + [timestamp];
      var messages := PollOnce(response);
      assert Transcript(server, timestamp, k + 1) == Transcript(server, timestamp, k) + messages;
      sent := sent + messages;
      k := k + 1;
    }
  }

  /**
   * `main`, stopped after `cycles` polling cycles. `Start` is sent first, the
   * poll timestamp is set from `now`, and only then are the secrets checked;
   * a missing secret ends the process with `ValueError` before any request.
   */
  method RunBot(env: Env, now: int, server: Server, cycles: nat)
    returns (outbox: seq<string>, queries: seq<int>, exit: Option<PyError>)
    ensures |outbox| >= 1 && outbox[0] == StartText
    ensures exit == if TokensPresent(env) then None else Some(ValueError(FatalNote))
    ensures exit.Some? ==> outbox == [StartText] && queries == []
    ensures exit.None? ==> |queries| == cycles
    ensures forall k :: 0 <= k < |queries| ==> queries[k] == now - StartOffset
    ensures exit.None? ==> outbox == [StartText] + Transcript(server, now - StartOffset, cycles)
  {
    outbox := [StartText];
    var timestamp := now - StartOffset;
    var tokens := CheckTokens(env);
    if tokens.Fail? {
      return outbox, [], Some(ValueError(FatalNote));
    }
    var sent;
    sent, queries := PollLoop(server, timestamp, cycles);
    outbox := outbox + sent;
    exit := None;
  }
}

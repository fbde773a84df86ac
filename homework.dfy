/** The decision-making functions of the bot (homework.py): the shape check
    on an API answer, the formatting of one homework's status and the check
    that the required tokens are set. Exceptions become the `Error` tags. */
module Homework {
  import opened Wrappers
  import opened Json

  /** The exceptions that one poll iteration can raise, each with the text
      Python's `str(error)` gives. */
  datatype Error =
    | TypeErr(text: string)       // TypeError
    | EmptyAnswers(text: string)  // exceptions.EmptyAnswersAPI
    | KeyErr(key: string)         // KeyError; str() shows the key's repr
    | ValueErr(text: string)      // ValueError
    | AttrErr(text: string)       // AttributeError
    | ConnErr(text: string)       // ConnectionError raised by get_api_answer
    | UnboundMessage              // UnboundLocalError for the local `message`

  /** `str(error)` for each kind of exception. */
  function ErrorText(e: Error): string
  {
    match e
    case TypeErr(t) => t
    case EmptyAnswers(t) => t
    case KeyErr(k) => "'" + k + "'"
    case ValueErr(t) => t
    case AttrErr(t) => t
    case ConnErr(t) => t
    case UnboundMessage =>
      "cannot access local variable 'message' where it is not associated with a value"
  }

  // The verdict table HOMEWORK_VERDICTS.
  const ApprovedVerdict := "Работа проверена: ревьюеру всё понравилось. Ура!"
  const ReviewingVerdict := "Работа взята на проверку ревьюером."
  const RejectedVerdict := "Работа проверена: у ревьюера есть замечания."
  const Verdicts: map<string, string> :=
    map["approved" := ApprovedVerdict,
        "reviewing" := ReviewingVerdict,
        "rejected" := RejectedVerdict]

  // Exception texts fixed by the source.
  const NotAMappingText := "Необрабатываемый ответ API."
  const EmptyAnswersText := "Пустой ответ от API"
  const NotAListText := "Неверные данные."
  const NoNameText := "У homework нет имени"
  const NoStatusText := "У homework нет статуса"
  const BadStatusPrefix := "Ошибка статуса homework : "
  const MessagePrefix := "Изменился статус проверки работы \""
  const NameEnd := "\". "

  /* ---------------------------------------------------------------------
     check_response
     --------------------------------------------------------------------- */

  /** check_response: the `homeworks` list of a well-formed answer, or the
      first of its three shape errors. */
  function CheckResponse(response: Json): (r: Result<seq<Json>, Error>)
    // anything but a dict is refused before any key is looked at
    ensures !response.JObj? <==> r == Failure(TypeErr(NotAMappingText))
    // a dict without "homeworks" is the empty answer, whatever else it holds
    ensures (response.JObj? && "homeworks" !in response.fields)
            <==> r == Failure(EmptyAnswers(EmptyAnswersText))
    // "homeworks" present but not a list (null included) is a type error
    ensures (response.JObj? && "homeworks" in response.fields
             && !response.fields["homeworks"].JList?)
            <==> r == Failure(TypeErr(NotAListText))
    // otherwise the list itself, unchanged and possibly empty
    ensures r.Success? <==>
              response.JObj? && "homeworks" in response.fields
              && response.fields["homeworks"].JList?
    ensures r.Success? ==> response.fields["homeworks"] == JList(r.value)
  {
    if !response.JObj? then Failure(TypeErr(NotAMappingText))
    else if "homeworks" !in response.fields then Failure(EmptyAnswers(EmptyAnswersText))
    else
      var homeworks := response.fields["homeworks"];
      if !homeworks.JList? then Failure(TypeErr(NotAListText))
      else Success(homeworks.items)
  }

  /** Whatever else an answer holds, putting a list under "homeworks" makes
      check_response hand back exactly that list. */
  lemma CheckResponseReturnsHomeworks(fields: map<string, Json>, homeworks: seq<Json>)
    ensures CheckResponse(JObj(fields["homeworks" := JList(homeworks)])) == Success(homeworks)
  {
  }

  /* ---------------------------------------------------------------------
     parse_status
     --------------------------------------------------------------------- */

  /** The sentence sent for a homework named `name` with verdict `verdict`. */
  function StatusMessage(name: string, verdict: string): string
  {
    MessagePrefix + name + NameEnd + verdict
  }

  /** parse_status: the notification for one homework record, or the
      exception it raises. */
  function ParseStatus(homework: Json): (r: Result<string, Error>)
    // homework.get on something that is not a dict
    ensures !homework.JObj? ==>
              r == Failure(AttrErr("'" + TypeName(homework) + "' object has no attribute 'get'"))
    // the name is checked first: absent or null
    ensures homework.JObj? && Field(homework, "homework_name") == JNull ==>
              r == Failure(KeyErr(NoNameText))
    // then the status: absent or null
    ensures homework.JObj? && Field(homework, "homework_name") != JNull
            && Field(homework, "status") == JNull ==>
              r == Failure(KeyErr(NoStatusText))
    // a status outside the table is refused; only the three keys succeed
    ensures r.Success? <==>
              homework.JObj? && Field(homework, "homework_name") != JNull
              && Field(homework, "status").JStr? && Field(homework, "status").s in Verdicts
    // a list or dict status cannot be looked up in the table at all
    ensures homework.JObj? && Field(homework, "homework_name") != JNull
            && (Field(homework, "status").JList? || Field(homework, "status").JObj?) ==>
              r == Failure(TypeErr("unhashable type: '" + TypeName(Field(homework, "status")) + "'"))
    // any other non-null status outside the table is a value error quoting it
    ensures homework.JObj? && Field(homework, "homework_name") != JNull
            && Field(homework, "status") != JNull
            && !(Field(homework, "status").JList? || Field(homework, "status").JObj?)
            && !(Field(homework, "status").JStr? && Field(homework, "status").s in Verdicts) ==>
              r == Failure(ValueErr(BadStatusPrefix + PyStr(Field(homework, "status"))))
    ensures r.Success? ==>
              r.value == StatusMessage(PyStr(Field(homework, "homework_name")),
                                       Verdicts[Field(homework, "status").s])
  {
    if !homework.JObj? then
      Failure(AttrErr("'" + TypeName(homework) + "' object has no attribute 'get'"))
    else
      var name := Get(homework.fields, "homework_name");
      if name == JNull then Failure(KeyErr(NoNameText))
      else
        var status := Get(homework.fields, "status");
        if status == JNull then Failure(KeyErr(NoStatusText))
        // `status in dict` hashes the status; lists and dicts are unhashable
        else if status.JList? || status.JObj? then
          Failure(TypeErr("unhashable type: '" + TypeName(status) + "'"))
        else if !(status.JStr? && status.s in Verdicts) then
          Failure(ValueErr(BadStatusPrefix + PyStr(status)))
        else
          Success(StatusMessage(PyStr(name), Verdicts[status.s]))
  }

  /* Reading a notification back: the status is recovered from the verdict
     the sentence ends with, the name from what lies between the fixed
     prefix and that verdict. */

  predicate EndsWith(s: string, suffix: string)
  {
    |suffix| <= |s| && s[|s| - |suffix|..] == suffix
  }

  /** The (name, status) a notification was built from, if it is one. */
  function DecodeMessage(m: string): Option<(string, string)>
  {
    if |m| < |MessagePrefix| || m[..|MessagePrefix|] != MessagePrefix then None
    else DecodeTail(m[|MessagePrefix|..])
  }

  /** The verdict-bearing end of the sentence for `status`. */
  function VerdictSuffix(status: string): string
    requires status in Verdicts
  {
    NameEnd + Verdicts[status]
  }

  /** The part of a notification after its fixed prefix, read back. */
  function DecodeTail(tail: string): Option<(string, string)>
  {
    if EndsWith(tail, VerdictSuffix("approved")) then
      Some((tail[..|tail| - |VerdictSuffix("approved")|], "approved"))
    else if EndsWith(tail, VerdictSuffix("reviewing")) then
      Some((tail[..|tail| - |VerdictSuffix("reviewing")|], "reviewing"))
    else if EndsWith(tail, VerdictSuffix("rejected")) then
      Some((tail[..|tail| - |VerdictSuffix("rejected")|], "rejected"))
    else None
  }

  /** If `s` ends with `suffix`, their last two characters agree. */
  lemma EndsWithLastTwo(s: string, suffix: string)
    requires |suffix| >= 2
    ensures EndsWith(s, suffix) ==> s[|s| - 2..] == suffix[|suffix| - 2..]
  {
    if EndsWith(s, suffix) {
      calc {
        s[|s| - 2..];
        s[|s| - |suffix|..][|suffix| - 2..];
        suffix[|suffix| - 2..];
      }
    }
  }

  /** A sentence ending in one verdict does not end in another: the three
      verdicts differ in their last two characters. */
  lemma VerdictSuffixesDiffer(name: string, status: string, other: string)
    requires status in Verdicts && other in Verdicts && status != other
    ensures !EndsWith(name + VerdictSuffix(status), VerdictSuffix(other))
  {
    var u, v := name + VerdictSuffix(status), VerdictSuffix(other);
    EndsWithLastTwo(u, v);
    assert u[|u| - 2..] == LastTwo(Verdicts[status]);
    assert v[|v| - 2..] == LastTwo(Verdicts[other]);
    VerdictEndings();
  }

  function LastTwo(s: string): string
    requires |s| >= 2
  {
    s[|s| - 2..]
  }

  /** The last two characters of the three verdicts. */
  lemma VerdictEndings()
    ensures LastTwo(Verdicts["approved"]) == "а!"
    ensures LastTwo(Verdicts["reviewing"]) == "м."
    ensures LastTwo(Verdicts["rejected"]) == "я."
  {
  }

  /** The tail of a notification reads back into its name and status. */
  lemma DecodeTailOf(name: string, status: string)
    requires status in Verdicts
    ensures DecodeTail(name + VerdictSuffix(status)) == Some((name, status))
  {
    var tail := name + VerdictSuffix(status);
    assert EndsWith(tail, VerdictSuffix(status));
    assert tail[..|tail| - |VerdictSuffix(status)|] == name;
    if status != "approved" { VerdictSuffixesDiffer(name, status, "approved"); }
    if status != "reviewing" { VerdictSuffixesDiffer(name, status, "reviewing"); }
  }

  /** Every notification can be read back into the name and the status it
      was built from. */
  lemma DecodeStatusMessage(name: string, status: string)
    requires status in Verdicts
    ensures DecodeMessage(StatusMessage(name, Verdicts[status])) == Some((name, status))
  {
    var m := StatusMessage(name, Verdicts[status]);
    var tail := name + VerdictSuffix(status);
    assert m == MessagePrefix + tail;
    assert m[..|MessagePrefix|] == MessagePrefix;
    assert m[|MessagePrefix|..] == tail;
    DecodeTailOf(name, status);
  }

  /** Round trip: a successful parse_status result reads back as the
      homework's name and status. */
  lemma ParseStatusDecodes(homework: Json)
    requires ParseStatus(homework).Success?
    ensures DecodeMessage(ParseStatus(homework).value)
            == Some((PyStr(Field(homework, "homework_name")), Field(homework, "status").s))
  {
    DecodeStatusMessage(PyStr(Field(homework, "homework_name")), Field(homework, "status").s);
  }

  /** Two homeworks whose statuses differ never produce the same
      notification, whatever their names. */
  lemma DistinctStatusesDistinctMessages(h1: Json, h2: Json)
    requires ParseStatus(h1).Success? && ParseStatus(h2).Success?
    requires Field(h1, "status") != Field(h2, "status")
    ensures ParseStatus(h1).value != ParseStatus(h2).value
  {
    ParseStatusDecodes(h1);
    ParseStatusDecodes(h2);
  }

  /* ---------------------------------------------------------------------
     check_tokens
     --------------------------------------------------------------------- */

  /** `not token` is false: the variable is set and not empty. */
  predicate Present(token: Option<string>)
  {
    token.Some? && token.value != ""
  }

  const PracticumLabel := "Практикум токен"
  const TelegramLabel := "Телеграм токен"
  const ChatIdLabel := "ID чата"

  /** The (label, value) pairs check_tokens walks through. As in the source,
      the chat-id row carries the Telegram token, so `chatId` is unused. */
  function TokenTable(practicum: Option<string>, telegram: Option<string>,
                      chatId: Option<string>): seq<(string, Option<string>)>
  {
    [(PracticumLabel, practicum), (TelegramLabel, telegram), (ChatIdLabel, telegram)]
  }

  /** The labels logged as missing, in table order. */
  function MissingLabels(pairs: seq<(string, Option<string>)>): seq<string>
  {
    if pairs == [] then []
    else
      var last := pairs[|pairs| - 1];
      MissingLabels(pairs[..|pairs| - 1]) + (if Present(last.1) then [] else [last.0])
  }

  /** check_tokens: true iff the Practicum and Telegram tokens are both set;
      the chat id plays no part. `missing` lists the labels it logs as
      critical. */
  method CheckTokens(practicum: Option<string>, telegram: Option<string>,
                     chatId: Option<string>) returns (ok: bool, missing: seq<string>)
    ensures ok <==> Present(practicum) && Present(telegram)
    ensures ok <==> missing == []
    ensures missing == MissingLabels(TokenTable(practicum, telegram, chatId))
    ensures ChatIdLabel in missing <==> !Present(telegram)
  {
    var tokens := TokenTable(practicum, telegram, chatId);
    ok := true;
    missing := [];
    for i := 0 to |tokens|
      invariant ok <==> forall j :: 0 <= j < i ==> Present(tokens[j].1)
      invariant missing == MissingLabels(tokens[..i])
      invariant ok <==> missing == []
    {
      assert tokens[..i + 1][..i] == tokens[..i];
      if !Present(tokens[i].1) {
        missing := missing + [tokens[i].0];
        ok := false;
      }
    }
    assert tokens[..|tokens|] == tokens;
    TokenTableMissing(practicum, telegram, chatId);
  }

  /** The labels check_tokens logs, spelled out: the chat-id label goes with
      the Telegram token. */
  lemma TokenTableMissing(practicum: Option<string>, telegram: Option<string>,
                          chatId: Option<string>)
    ensures MissingLabels(TokenTable(practicum, telegram, chatId))
            == (if Present(practicum) then [] else [PracticumLabel])
               + (if Present(telegram) then [] else [TelegramLabel, ChatIdLabel])
  {
    var t := TokenTable(practicum, telegram, chatId);
    assert t[..2][..1] == t[..1] && t[..1][..0] == [];
    assert t[..3][..2] == t[..2] && t[..2][..1] == t[..1];
    assert MissingLabels(t[..1]) == if Present(practicum) then [] else [PracticumLabel];
  }
}

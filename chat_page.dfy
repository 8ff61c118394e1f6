/**
 * The chat page's view-model: the hook's messages become page messages, each
 * row learns whether the next row has the same sender, and the page chooses
 * between the welcome screen and the conversation with its loading
 * indicator and error banner.
 */
module ChatPage {
  import opened Wrappers
  import opened ChatTypes

  /** A message as the chat hook hands it over; its role is any string. */
  datatype HookMessage = HookMessage(id: string, role: string, content: string)

  /** The hook's `error`, an `Error` object. */
  datatype HookError = HookError(message: string)

  const FALLBACK_ERROR: string := "Something went wrong. Please try again."
  const ERROR_LABEL: string := "Error: "

  /** One rendered message and its `isNextMessageSamePerson` flag. */
  datatype Row = Row(message: Message, sameNext: bool)

  datatype Screen =
    | Welcome
    | Conversation(rows: seq<Row>, loading: bool, banner: Option<string>)

  /** The callback of `formattedMessages`; `now` is the clock read by `new Date()`. */
  function ToView(m: HookMessage, now: int): (v: Message)
    ensures v.id == m.id && v.text == m.content && v.createdAt == Some(now)
    ensures v.kind == User <==> m.role == "user"
    ensures v.kind == Bot <==> m.role != "user"
  {
    Message(m.id, if m.role == "user" then User else Bot, m.content, Some(now))
  }

  /** `formattedMessages`: `messages.map(...)` */
  function FormatMessages(messages: seq<HookMessage>, now: int): (r: seq<Message>)
    ensures |r| == |messages|
  {
    if messages == [] then [] else [ToView(messages[0], now)] + FormatMessages(messages[1..], now)
  }

  /** `isNextMessageSamePerson` for the message at `index` */
  function SameSenderNext(view: seq<Message>, index: nat): (same: bool)
    requires index < |view|
    ensures index == |view| - 1 ==> !same
    ensures index < |view| - 1 ==> (same <==> view[index + 1].kind == view[index].kind)
  {
    index < |view| - 1 && view[index + 1].kind == view[index].kind
  }

  /** The rows of the conversation, in order. */
  function Rows(view: seq<Message>): (rows: seq<Row>)
    ensures |rows| == |view|
    ensures forall i :: 0 <= i < |view| ==> rows[i].message == view[i]
    ensures forall i :: 0 <= i < |view| ==> rows[i].sameNext == SameSenderNext(view, i)
  {
    seq(|view|, i requires 0 <= i < |view| => Row(view[i], SameSenderNext(view, i)))
  }

  /** `error.message || "Something went wrong. Please try again."`, after the label */
  function BannerText(error: HookError): (text: string)
    ensures |text| >= |ERROR_LABEL| && text[..|ERROR_LABEL|] == "Error: "
    ensures error.message != "" ==> text[|ERROR_LABEL|..] == error.message
    ensures error.message == "" ==> text[|ERROR_LABEL|..] == "Something went wrong. Please try again."
  {
    ERROR_LABEL + if error.message != "" then error.message else FALLBACK_ERROR
  }

  /** What the page renders for the hook's `messages`, `isLoading` and `error`. */
  function Render(messages: seq<HookMessage>, isLoading: bool, error: Option<HookError>, now: int): (s: Screen)
    ensures s.Welcome? <==> messages == []
    ensures s.Conversation? ==> |s.rows| == |messages| && s.loading == isLoading
    ensures s.Conversation? ==> (s.banner.Some? <==> error.Some?)
    ensures s.Conversation? && error.Some? ==> s.banner == Some(BannerText(error.value))
  {
    var view := FormatMessages(messages, now);
    if |view| == 0 then Welcome
    else Conversation(Rows(view), isLoading, if error.Some? then Some(BannerText(error.value)) else None)
  }

  // ---------------------------------------------------------------------------
  // Properties of the view-model

  /** Message i of the page is hook message i: same id, same text, `user` exactly when the role is "user". */
  lemma {:induction false} FormatMessagesAt(messages: seq<HookMessage>, now: int, i: int)
    requires 0 <= i < |messages|
    ensures FormatMessages(messages, now)[i] == ToView(messages[i], now)
    ensures FormatMessages(messages, now)[i].id == messages[i].id
    ensures FormatMessages(messages, now)[i].text == messages[i].content
    ensures FormatMessages(messages, now)[i].kind == User <==> messages[i].role == "user"
  {
    if i > 0 {
      FormatMessagesAt(messages[1..], now, i - 1);
    }
  }

  /** Before the last message, the rendered flag holds exactly when the next hook message was written by the same side ("user" or not). */
  lemma SameSenderNextIff(messages: seq<HookMessage>, now: int, i: int)
    requires 0 <= i < |messages| - 1
    ensures Rows(FormatMessages(messages, now))[i].sameNext <==>
      (messages[i + 1].role == "user" <==> messages[i].role == "user")
  {
    FormatMessagesAt(messages, now, i);
    FormatMessagesAt(messages, now, i + 1);
  }

  /** The number of maximal runs of one sender, counted independently of the flags. */
  function Runs(view: seq<Message>): nat
  {
    if |view| <= 1 then |view|
    else Runs(view[1..]) + (if view[0].kind != view[1].kind then 1 else 0)
  }

  /** The number of rows whose flag is false, i.e. that close a group of bubbles. */
  function GroupEnds(rows: seq<Row>): nat
  {
    if rows == [] then 0 else GroupEnds(rows[1..]) + (if rows[0].sameNext then 0 else 1)
  }

  /** Dropping the first message shifts every later flag by one place. */
  lemma RowsTail(view: seq<Message>)
    requires |view| > 0
    ensures Rows(view)[1..] == Rows(view[1..])
  {
    var a, b := Rows(view)[1..], Rows(view[1..]);
    assert |a| == |b|;
    forall i | 0 <= i < |a| ensures a[i] == b[i] {
      assert SameSenderNext(view, i + 1) == SameSenderNext(view[1..], i);
    }
  }

  /** The false flags split the conversation into its sender runs: one group end per run. */
  lemma {:induction false} GroupEndsAreRuns(view: seq<Message>)
    ensures GroupEnds(Rows(view)) == Runs(view)
  {
    if |view| == 0 {
    } else if |view| == 1 {
      assert !Rows(view)[0].sameNext;
      assert Rows(view)[1..] == [];
    } else {
      RowsTail(view);
      GroupEndsAreRuns(view[1..]);
      assert Rows(view)[0].sameNext == (view[1].kind == view[0].kind);
    }
  }

  /**
   * Row i of a rendered conversation is hook message i as the page shows it,
   * and its flag says whether hook message i + 1 comes from the same side.
   */
  lemma ConversationRows(messages: seq<HookMessage>, isLoading: bool, error: Option<HookError>, now: int)
    ensures var s := Render(messages, isLoading, error, now);
      s.Conversation? ==> forall i :: 0 <= i < |messages| ==>
        s.rows[i].message == ToView(messages[i], now)
        && (s.rows[i].sameNext <==> i < |messages| - 1 && (messages[i + 1].role == "user" <==> messages[i].role == "user"))
  {
    var s := Render(messages, isLoading, error, now);
    if s.Conversation? {
      forall i | 0 <= i < |messages|
        ensures s.rows[i].message == ToView(messages[i], now)
        ensures s.rows[i].sameNext <==> i < |messages| - 1 && (messages[i + 1].role == "user" <==> messages[i].role == "user")
      {
        FormatMessagesAt(messages, now, i);
        if i < |messages| - 1 {
          FormatMessagesAt(messages, now, i + 1);
        }
      }
    }
  }
}

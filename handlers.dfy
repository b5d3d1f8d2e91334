/**
 * The bot's three workflows as traces of the calls they make to the chat
 * platform and the backend: the vote handler (`poll_query_handler`), the
 * broadcast (`send_poll_to_channel`) and the membership listener
 * (`chat_member_updated_handler`). Every network answer is an input.
 */
module Handlers {
  import opened Wrappers
  import opened Keyboard
  import opened StatsReport
  import opened Membership
  import opened Commands
  import opened Backend
  import opened Text

  datatype User = User(id: int, firstName: string, lastName: Option<string>, username: Option<string>)

  /** A button press: who pressed, the button's payload, and the keyboard of the message it belongs to. */
  datatype CallbackQuery = CallbackQuery(fromUser: User, data: Option<string>, messageMarkup: Option<Markup>)

  /** One outward call, in the order it is made. */
  datatype Effect =
    | GetChatMember(chat: string, userId: int)                 // membership lookup
    | Backend(call: BackendCall)                               // create / update a user record
    | GetStats                                                 // GET /stats/
    | GetPolls                                                 // GET /get-polls/
    | AnswerCallback(text: string, showAlert: bool)            // query.answer
    | EditMessageText(text: string, markup: Option<Markup>)    // query.message.edit_text
    | SendMessage(chat: string, text: string, keyboard: Markup)  // bot.send_message
    | Reply(text: string)                                      // message.answer
    | LogError                                                 // logging.error of a caught exception

  /** "You must be subscribed to our channel to take part in the poll!" */
  const SubscribeAlert: string := "Сўровномада иштирок этиш учун каналимизга обуна бўлган бўлишингиз керак!"
  /** "You have already voted for another school!" */
  const RejectAlert: string := "\U{274C} Сиз олдин бошқа мактабга овоз бергансиз!"
  /** "Your vote has been accepted! It will appear shortly! Your vote: " */
  const ConfirmPrefix: string := "\U{2705} Сизнинг овозингиз қабул қилинди! Овозингиз тез орада пайдо бўлади!\nСизнинг овозингиз: "
  const PollSentReply: string := "Poll sent to the channel"

  /** Python's f-string rendering of an optional string. */
  function FormatOptional(s: Option<string>): string {
    match s
    case Some(v) => v
    case None => "None"
  }

  /** The confirmation alert, naming the pressed button's payload. */
  function ConfirmAlert(data: Option<string>): string {
    ConfirmPrefix + FormatOptional(data)
  }

  function BackendEffects(calls: seq<BackendCall>): (effects: seq<Effect>)
    ensures |effects| == |calls|
    ensures forall i :: 0 <= i < |calls| ==> effects[i] == Backend(calls[i])
  {
    seq(|calls|, i requires 0 <= i < |calls| => Backend(calls[i]))
  }

  /** Number of effects in `effects` that satisfy `p`. */
  function Count(effects: seq<Effect>, p: Effect -> bool): nat {
    if |effects| == 0 then 0 else (if p(effects[0]) then 1 else 0) + Count(effects[1..], p)
  }

  lemma {:induction false} CountAppend(a: seq<Effect>, b: seq<Effect>, p: Effect -> bool)
    ensures Count(a + b, p) == Count(a, p) + Count(b, p)
    decreases |a|
  {
    if |a| == 0 {
      assert a + b == b;
    } else {
      assert (a + b)[1..] == a[1..] + b;
      CountAppend(a[1..], b, p);
    }
  }

  /**
   * What the vote handler does, stage by stage: membership lookup; if the
   * gate closes, the subscription alert and nothing else; otherwise the
   * record call(s), the rejection alert when the record returned `False`,
   * the stats fetch, the edit with the fresh report and the message's own
   * keyboard, then (inside the same try block) the confirmation alert if the
   * edit did not raise, and a logged error if either of them raised.
   */
  function VoteTrace(channel: string, query: CallbackQuery, status: MemberStatus,
                     createStatus: int, updateStatus: int, stats: Stats,
                     editRaises: bool, answerRaises: bool): seq<Effect>
  {
    var user := query.fromUser;
    var lookup := [GetChatMember(channel, user.id)];
    if CheckIsUserSubscribed(status) then
      lookup + [AnswerCallback(SubscribeAlert, true)]
    else
      var record := BackendEffects(RecordCalls(user.id, FullName(user.firstName, user.lastName),
                                               user.username, query.data, createStatus));
      var rejection := RejectionEffects(RecordResult(createStatus, updateStatus));
      var edit := [EditMessageText(Report(stats), query.messageMarkup)];
      lookup + record + rejection + [GetStats] + edit + TryEffects(query.data, editRaises, answerRaises)
  }

  /** The rejection alert, sent when the record returned `False`. */
  function RejectionEffects(haveAlreadyVoted: RecordReturn): seq<Effect> {
    if haveAlreadyVoted == ReturnsFalse then [AnswerCallback(RejectAlert, true)] else []
  }

  /** What follows the edit inside the try block: the confirmation, or a logged error if either raised. */
  function TryEffects(data: Option<string>, editRaises: bool, answerRaises: bool): seq<Effect> {
    if editRaises then [LogError]
    else [AnswerCallback(ConfirmAlert(data), true)] + (if answerRaises then [LogError] else [])
  }

  /**
   * `poll_query_handler`. `status` is the membership lookup's answer,
   * `createStatus` / `updateStatus` the backend's, `stats` the `/stats/`
   * mapping, and `editRaises` / `answerRaises` whether the edit or the
   * confirmation raised inside the try block.
   */
  method PollQueryHandler(channel: string, query: CallbackQuery, status: MemberStatus,
                          createStatus: int, updateStatus: int, stats: Stats,
                          editRaises: bool, answerRaises: bool)
    returns (effects: seq<Effect>)
    ensures effects == VoteTrace(channel, query, status, createStatus, updateStatus, stats, editRaises, answerRaises)
  {
    var user := query.fromUser;
    effects := [GetChatMember(channel, user.id)];
    if CheckIsUserSubscribed(status) {
      effects := effects + [AnswerCallback(SubscribeAlert, true)];
      return;
    }

    var calls, haveAlreadyVoted := CreateOrUpdateUser(user.id, FullName(user.firstName, user.lastName),
                                                      user.username, query.data, createStatus, updateStatus);
    effects := effects + BackendEffects(calls);
    if haveAlreadyVoted == ReturnsFalse {
      effects := effects + [AnswerCallback(RejectAlert, true)];
    }

    effects := effects + [GetStats];
    var statsText := RenderStats(stats);
    var oldKeyboard := query.messageMarkup;

    effects := effects + [EditMessageText(statsText, oldKeyboard)];
    if editRaises {
      effects := effects + [LogError];
    } else {
      effects := effects + [AnswerCallback(ConfirmAlert(query.data), true)];
      if answerRaises {
        effects := effects + [LogError];
      }
    }
  }

  predicate IsBackend(e: Effect) { e.Backend? }
  predicate IsGetStats(e: Effect) { e.GetStats? }
  predicate IsEdit(e: Effect) { e.EditMessageText? }
  predicate IsAnswer(e: Effect) { e.AnswerCallback? }

  lemma {:induction false} CountBackendEffects(calls: seq<BackendCall>)
    ensures Count(BackendEffects(calls), IsBackend) == |calls|
    ensures Count(BackendEffects(calls), IsGetStats) == 0
    ensures Count(BackendEffects(calls), IsEdit) == 0
    ensures Count(BackendEffects(calls), IsAnswer) == 0
    decreases |calls|
  {
    if |calls| > 0 {
      assert BackendEffects(calls)[1..] == BackendEffects(calls[1..]);
      CountBackendEffects(calls[1..]);
    }
  }

  lemma CountSingle(e: Effect, p: Effect -> bool)
    ensures Count([e], p) == if p(e) then 1 else 0
  {
  }

  /**
   * A closed gate (status "left") ends the handler after the subscription
   * alert: no backend call, no stats fetch, no edit.
   */
  lemma GateClosedStopsHandler(channel: string, query: CallbackQuery, status: MemberStatus,
                               createStatus: int, updateStatus: int, stats: Stats,
                               editRaises: bool, answerRaises: bool)
    requires status == Left
    ensures VoteTrace(channel, query, status, createStatus, updateStatus, stats, editRaises, answerRaises)
      == [GetChatMember(channel, query.fromUser.id), AnswerCallback(SubscribeAlert, true)]
    ensures var trace := VoteTrace(channel, query, status, createStatus, updateStatus, stats, editRaises, answerRaises);
      trace[0] == GetChatMember(channel, query.fromUser.id) &&
      trace[|trace| - 1] == AnswerCallback(SubscribeAlert, true) &&
      Count(trace, IsBackend) == 0 && Count(trace, IsGetStats) == 0 &&
      Count(trace, IsEdit) == 0 && Count(trace, IsAnswer) == 1
  {
    var trace := VoteTrace(channel, query, status, createStatus, updateStatus, stats, editRaises, answerRaises);
    var a, b := GetChatMember(channel, query.fromUser.id), AnswerCallback(SubscribeAlert, true);
    assert trace == [a] + [b];
    forall p: Effect -> bool
      ensures Count(trace, p) == Count([a], p) + Count([b], p)
    {
      CountAppend([a], [b], p);
    }
    CountSingle(a, IsBackend); CountSingle(b, IsBackend);
    CountSingle(a, IsGetStats); CountSingle(b, IsGetStats);
    CountSingle(a, IsEdit); CountSingle(b, IsEdit);
    CountSingle(a, IsAnswer); CountSingle(b, IsAnswer);
  }

  lemma CountSix(a: seq<Effect>, b: seq<Effect>, c: seq<Effect>, d: seq<Effect>, e: seq<Effect>, f: seq<Effect>,
                 p: Effect -> bool)
    ensures Count(a + b + c + d + e + f, p)
         == Count(a, p) + Count(b, p) + Count(c, p) + Count(d, p) + Count(e, p) + Count(f, p)
  {
    CountAppend(a + b + c + d + e, f, p);
    CountAppend(a + b + c + d, e, p);
    CountAppend(a + b + c, d, p);
    CountAppend(a + b, c, p);
    CountAppend(a, b, p);
  }

  lemma CountRejection(haveAlreadyVoted: RecordReturn)
    ensures Count(RejectionEffects(haveAlreadyVoted), IsBackend) == 0
    ensures Count(RejectionEffects(haveAlreadyVoted), IsGetStats) == 0
    ensures Count(RejectionEffects(haveAlreadyVoted), IsEdit) == 0
    ensures Count(RejectionEffects(haveAlreadyVoted), IsAnswer) == if haveAlreadyVoted == ReturnsFalse then 1 else 0
  {
  }

  lemma CountTry(data: Option<string>, editRaises: bool, answerRaises: bool)
    ensures Count(TryEffects(data, editRaises, answerRaises), IsBackend) == 0
    ensures Count(TryEffects(data, editRaises, answerRaises), IsGetStats) == 0
    ensures Count(TryEffects(data, editRaises, answerRaises), IsEdit) == 0
    ensures Count(TryEffects(data, editRaises, answerRaises), IsAnswer) == if editRaises then 0 else 1
  {
    var confirm := AnswerCallback(ConfirmAlert(data), true);
    if !editRaises && answerRaises {
      CountAppend([confirm], [LogError], IsBackend);
      CountAppend([confirm], [LogError], IsGetStats);
      CountAppend([confirm], [LogError], IsEdit);
      CountAppend([confirm], [LogError], IsAnswer);
    }
  }

  /**
   * With the gate open, the handler records the vote with one or two backend
   * calls (two exactly when the create is not answered 201), fetches the
   * stats once and edits the message once, whatever the record returned.
   * It answers the query once per alert: the rejection alert when the record
   * returned `False`, the confirmation when the edit did not raise; so a
   * rejected vote whose edit succeeds answers the same query twice.
   */
  lemma {:induction false} GateOpenCounts(channel: string, query: CallbackQuery, status: MemberStatus,
                                          createStatus: int, updateStatus: int, stats: Stats,
                                          editRaises: bool, answerRaises: bool)
    requires status != Left
    ensures var trace := VoteTrace(channel, query, status, createStatus, updateStatus, stats, editRaises, answerRaises);
      var rejected := createStatus != Created && updateStatus != Ok;
      Count(trace, IsBackend) == (if createStatus == Created then 1 else 2) &&
      Count(trace, IsGetStats) == 1 &&
      Count(trace, IsEdit) == 1 &&
      Count(trace, IsAnswer) == (if rejected then 1 else 0) + (if editRaises then 0 else 1)
  {
    var user := query.fromUser;
    var calls := RecordCalls(user.id, FullName(user.firstName, user.lastName), user.username, query.data, createStatus);
    var lookup := [GetChatMember(channel, user.id)];
    var record := BackendEffects(calls);
    var haveAlreadyVoted := RecordResult(createStatus, updateStatus);
    var rejection := RejectionEffects(haveAlreadyVoted);
    var edit := [EditMessageText(Report(stats), query.messageMarkup)];
    var tail := TryEffects(query.data, editRaises, answerRaises);
    var trace := VoteTrace(channel, query, status, createStatus, updateStatus, stats, editRaises, answerRaises);
    assert trace == lookup + record + rejection + [GetStats] + edit + tail;
    CountSix(lookup, record, rejection, [GetStats], edit, tail, IsBackend);
    CountSix(lookup, record, rejection, [GetStats], edit, tail, IsGetStats);
    CountSix(lookup, record, rejection, [GetStats], edit, tail, IsEdit);
    CountSix(lookup, record, rejection, [GetStats], edit, tail, IsAnswer);
    CountBackendEffects(calls);
    CountRejection(haveAlreadyVoted);
    CountTry(query.data, editRaises, answerRaises);
  }

  /**
   * A rejected vote (create not answered 201, update not answered 200) still
   * refreshes the tally: the rejection alert is followed by the stats fetch
   * and the edit with the fresh report.
   */
  lemma RejectedVoteStillRefreshes(channel: string, query: CallbackQuery, status: MemberStatus,
                                   createStatus: int, updateStatus: int, stats: Stats,
                                   editRaises: bool, answerRaises: bool)
    requires status != Left
    requires createStatus != Created && updateStatus != Ok
    ensures var trace := VoteTrace(channel, query, status, createStatus, updateStatus, stats, editRaises, answerRaises);
      exists i :: 0 < i && i + 2 < |trace| &&
        trace[i] == AnswerCallback(RejectAlert, true) &&
        trace[i + 1] == GetStats &&
        trace[i + 2] == EditMessageText(Report(stats), query.messageMarkup)
  {
    var user := query.fromUser;
    var calls := RecordCalls(user.id, FullName(user.firstName, user.lastName), user.username, query.data, createStatus);
    var trace := VoteTrace(channel, query, status, createStatus, updateStatus, stats, editRaises, answerRaises);
    var head := [GetChatMember(channel, user.id)] + BackendEffects(calls);
    var rest := [AnswerCallback(RejectAlert, true), GetStats, EditMessageText(Report(stats), query.messageMarkup)];
    var tail := TryEffects(query.data, editRaises, answerRaises);
    assert trace == head + rest + tail;
    var i := |head|;
    assert trace[i] == rest[0] && trace[i + 1] == rest[1] && trace[i + 2] == rest[2];
  }

  lemma AlertsDiffer(data: Option<string>)
    ensures ConfirmAlert(data) != RejectAlert && ConfirmAlert(data) != SubscribeAlert
  {
  }

  /**
   * Every edit the handler makes puts the fresh report into the message and
   * reattaches the message's existing keyboard unchanged.
   */
  lemma EditKeepsKeyboard(channel: string, query: CallbackQuery, status: MemberStatus,
                          createStatus: int, updateStatus: int, stats: Stats,
                          editRaises: bool, answerRaises: bool)
    ensures forall e :: (e in VoteTrace(channel, query, status, createStatus, updateStatus, stats, editRaises, answerRaises)
                         && e.EditMessageText?) ==> e == EditMessageText(Report(stats), query.messageMarkup)
  {
  }

  /**
   * The confirmation alert naming the pressed payload is sent exactly when
   * the gate is open and the edit did not raise, and then right after the
   * edit; a raising edit is logged instead of propagated.
   */
  lemma ConfirmationOnlyAfterEdit(channel: string, query: CallbackQuery, status: MemberStatus,
                                  createStatus: int, updateStatus: int, stats: Stats,
                                  editRaises: bool, answerRaises: bool)
    ensures var trace := VoteTrace(channel, query, status, createStatus, updateStatus, stats, editRaises, answerRaises);
      (AnswerCallback(ConfirmAlert(query.data), true) in trace <==> status != Left && !editRaises) &&
      (status != Left ==>
         exists i :: (0 < i < |trace| &&
           trace[i - 1] == EditMessageText(Report(stats), query.messageMarkup) &&
           trace[i] == if editRaises then LogError else AnswerCallback(ConfirmAlert(query.data), true)))
  {
    var user := query.fromUser;
    var calls := RecordCalls(user.id, FullName(user.firstName, user.lastName), user.username, query.data, createStatus);
    var trace := VoteTrace(channel, query, status, createStatus, updateStatus, stats, editRaises, answerRaises);
    var confirm := AnswerCallback(ConfirmAlert(query.data), true);
    AlertsDiffer(query.data);
    forall e | e in BackendEffects(calls)
      ensures e.Backend?
    {
    }
    if status != Left {
      var rejection := RejectionEffects(RecordResult(createStatus, updateStatus));
      var head := [GetChatMember(channel, user.id)] + BackendEffects(calls) + rejection + [GetStats];
      var edit := EditMessageText(Report(stats), query.messageMarkup);
      var next := if editRaises then LogError else confirm;
      var tail := if editRaises || !answerRaises then [] else [LogError];
      assert trace == head + [edit, next] + tail;
      var i := |head| + 1;
      assert trace[i - 1] == edit && trace[i] == next;
    }
  }

  /**
   * `send_poll_to_channel` together with its filter: for a message whose
   * text is one of the broadcast commands, fetch the stats, render the
   * report, fetch the options and build a fresh keyboard from them, post
   * both into the channel, and tell the operator. Any other message does
   * not reach this handler.
   */
  method SendPollToChannel(channel: string, text: Option<string>, stats: Stats, polls: seq<string>)
    returns (effects: seq<Effect>)
    ensures !SendPollFilter.Call(text) ==> effects == []
    ensures SendPollFilter.Call(text) ==>
      effects == [GetStats, GetPolls, SendMessage(channel, Report(stats), PollsKeyboard(polls)), Reply(PollSentReply)]
  {
    if !SendPollFilter.Call(text) {
      return [];
    }
    effects := [GetStats];
    var statsText := RenderStats(stats);
    effects := effects + [GetPolls];
    var keyboard := PollsKeyboard(polls);
    effects := effects + [SendMessage(channel, statsText, keyboard)];
    effects := effects + [Reply(PollSentReply)];
  }

  /** A membership change: the user concerned, with their status before and after. */
  datatype ChatMemberUpdated = ChatMemberUpdated(user: User, oldStatus: MemberStatus, newStatus: MemberStatus)

  /**
   * `chat_member_updated_handler` together with its filter: when a member
   * becomes a non-member, record the user with their display name and no
   * choice; the record's return value is ignored. Other transitions do not
   * reach this handler.
   */
  method ChatMemberUpdatedHandler(event: ChatMemberUpdated, createStatus: int, updateStatus: int)
    returns (effects: seq<Effect>)
    ensures !LeftTheChannel(event.oldStatus, event.newStatus) ==> effects == []
    ensures LeftTheChannel(event.oldStatus, event.newStatus) ==>
      1 <= |effects| <= 2 &&
      effects[0] == Backend(CreateUser(IntText(event.user.id),
                                       FullName(event.user.firstName, event.user.lastName),
                                       event.user.username, None))
    ensures forall i :: 0 <= i < |effects| ==> effects[i].Backend? && effects[i].call.choice == None
    ensures LeftTheChannel(event.oldStatus, event.newStatus) ==>
      effects == BackendEffects(RecordCalls(event.user.id, FullName(event.user.firstName, event.user.lastName),
                                            event.user.username, None, createStatus))
  {
    if !LeftTheChannel(event.oldStatus, event.newStatus) {
      return [];
    }
    var user := event.user;
    var calls, _ := CreateOrUpdateUser(user.id, FullName(user.firstName, user.lastName),
                                       user.username, None, createStatus, updateStatus);
    effects := BackendEffects(calls);
  }
}

# Poll bot core, modelled in Dafny

A model of the deterministic core of a Telegram poll bot (`app.py`). The bot
posts a poll report into a channel and lets channel members vote with inline
buttons. Each vote is recorded against a remote tally backend, and the report
in the poll message is then refreshed. Every network answer is an input to
the model: the chat-member status, the backend's HTTP statuses, the `/stats/`
mapping, the option list, and whether an edit or an answer raised. Each
handler is a method that returns the trace of outward calls it makes, in
order.

Modules, leaves first:

- `Wrappers`: `Option`, standing for Python's `X | None`.
- `Text`: Python's `str(n)` on integers with its parser (round trip), and
  `"\n".join` with a split function (split of a join gives back the parts).
- `Keyboard`: the inline keyboard built from the option list. There is one
  button per option, label and payload both equal to the option, and the
  buttons are cut into rows of three.
- `StatsReport`: the tally report. A heading is followed by one line
  `<strong>{i}. {label}:</strong>    {count}` per stats entry. `RenderStats` is
  the counter loop the handlers run; `Report` is its specification.
- `Membership`: the channel-membership statuses, the gate
  (`check_is_user_subscribed_the_channel`, true exactly for "left"), and the
  member-to-non-member filter of the membership listener.
- `Commands`: `TextEqualsFilter` and the display-name assembly.
- `Backend`: `create_or_update_user`. A create request is always made, and an
  update request follows when the create is not answered 201. The function
  returns `False` when that update is not answered 200, and `None` otherwise,
  never `True`.
- `Handlers`: the vote handler, the broadcast handler and the membership
  listener, as effect traces. `VoteTrace` specifies the vote handler, and
  the lemmas about it give the handler's guarantees.

Three behaviours of the code are easy to miss, and the model keeps them:

- `create_or_update_user` never returns an "accepted" value. A successful
  record falls off the end and returns `None`.
- A transport failure on a backend call is not turned into a rejection. The
  exception propagates out of the handler (see "Left out").
- The voter is not always answered exactly once. The confirmation is sent
  only when the edit does not raise. A rejected vote whose edit succeeds
  answers the same callback query twice: the rejection alert, then the
  confirmation.

## Model

| member | source | states |
|---|---|---|
| `Text.ParseIntText` | app.py:55 | the decimal text of an integer (`str(user_id)`, `{count}`) reads back as that integer, so distinct ids get distinct texts |
| `Text.SplitJoin` | app.py:117-122 | splitting a newline join on newlines gives back the parts, provided no part contains a newline |
| `Keyboard.OptionButtons` | app.py:91-93 | one button per option, in option order, whose text and callback data are both the option |
| `Keyboard.PollsKeyboardCorrect` | app.py:91-98 | the keyboard read row by row is exactly the option buttons in order; it has ceil(n/3) rows; every row but the last holds 3 buttons, and the last holds 1 to 3; the button at row r, column j carries option 3r+j |
| `StatsReport.RenderStats` | app.py:110-122 | the counter loop yields the heading followed by the numbered lines joined by newlines, line i (from 1) being `<strong>{i}. {label_i}:</strong>    {count_i}` for the i-th stats entry |
| `StatsReport.ReportLines` | app.py:117-122 | the report starts with the heading; with no entries it is the heading alone; otherwise the text after the heading splits on newlines into exactly one line per entry, in entry order (labels without newlines) |
| `StatsReport.LineNumberOf` | app.py:112-119 | the number printed at the head of a line reads back as the counter value it was rendered with |
| `StatsReport.ReportNumbering` | app.py:110-120 | line numbering is consecutive from 1 in entry order: entry i (0-based) is numbered i+1 |
| `Membership.CheckIsUserSubscribed` | app.py:72-76 | true exactly when the status is "left"; true implies non-member; the non-members it lets through are exactly the kicked and the restricted non-members |
| `Commands.TextEqualsFilter.Call` | app.py:40-45 | passes exactly when the message has text equal to some entry of the list; a message without text never passes |
| `Commands.SendPollFilterPasses` | app.py:107 | the broadcast is triggered exactly by the texts `send_poll`, `/send_poll` and `poll` |
| `Commands.FullName` | app.py:139 | the name is the first name, one space, then the last name or nothing, so a user without a last name gets a trailing space |
| `Backend.RecordCalls` | app.py:51-65 | the first request is always the create request with the user's id text, name, username and choice; a second request is made exactly when the create status is not 201, and it is the update request with the same id and choice; there are never more than two |
| `Backend.RecordResult` | app.py:61-69 | a create answered 201 gives `None`; after any other create status the result is `False` exactly when the update is not answered 200 |
| `Backend.CreateOrUpdateUser` | app.py:48-69 | the requests made and the value returned are those of `RecordCalls` and `RecordResult` |
| `Handlers.PollQueryHandler` | app.py:128-172 | the handler's calls are those of `VoteTrace`: lookup, then on "left" only the subscription alert; otherwise the record requests, the rejection alert on `False`, the stats fetch, the edit with the report and the old keyboard, then the confirmation or a logged error |
| `Handlers.GateClosedStopsHandler` | app.py:130-135 | when the status is "left", the handler's calls are exactly the lookup and then the subscription alert: one answer, no backend request, no stats fetch and no edit |
| `Handlers.GateOpenCounts` | app.py:137-170 | with the gate open: one or two backend requests (two exactly when the create is not answered 201); one stats fetch and one edit whatever the record returned; answers counted as one for a `False` record plus one when the edit did not raise |
| `Handlers.RejectedVoteStillRefreshes` | app.py:143-166 | a `False` record yields the rejection alert, immediately followed by the stats fetch and the edit with the fresh report |
| `Handlers.EditKeepsKeyboard` | app.py:163-166 | every edit carries the report of the fetched stats and reattaches the message's existing keyboard unchanged |
| `Handlers.ConfirmationOnlyAfterEdit` | app.py:165-172 | the confirmation naming the pressed payload is sent exactly when the gate is open and the edit did not raise; with the gate open, the edit is followed directly by the confirmation or, when it raised, by a logged error and nothing propagates |
| `Handlers.SendPollToChannel` | app.py:107-125 | a broadcast command fetches the stats and the options, posts the same report the vote handler renders with a fresh keyboard into the channel, then replies to the operator; any other text does nothing |
| `Handlers.ChatMemberUpdatedHandler` | app.py:175-183 | only a member-to-non-member transition reaches the listener; it then makes exactly the requests of `RecordCalls` with no choice: the create with the user's id text and assembled name, then the update with the same id when the create is not answered 201 |

## Left out

- HTTP sessions, URL building and JSON decoding are not modelled. The backend's statuses, the `/stats/` mapping and the option list are inputs.
- The `/stats/` counts are taken to be integers. The code renders whatever JSON value the backend sends (a float, `null`, …).
- The `/stats/` mapping is taken as its entries in iteration order. Key uniqueness is not modelled, because the rendering does not depend on it.
- Every exception in the broadcast handler and the membership listener is not modelled, and neither is every exception outside the vote handler's try block. In the code these propagate to the dispatcher and end the handler at that call. They include:
  - a failing membership lookup;
  - a backend transport or JSON error;
  - a failing subscription alert or rejection alert;
  - a query whose message is missing;
  - a failing `bot.send_message` in the broadcast, after which no operator reply is sent;
  - a failing operator reply.
- Logging is left out except as a payload-free `LogError` effect for the caught edit or confirmation exception. The two error logs in `create_or_update_user` are not traced.
- The start-command greeting (`html.bold` of the user's full name) is left out. It is a thin wrapper over the chat library.
- Handler registration, dispatcher routing and transport are left out beyond the two filters that guard the handlers modelled here.
- Process bootstrap is left out: environment and configuration loading, the logging setup and the polling loop. The channel id is a parameter.
- Interleaving of concurrent handler runs is left out. The handlers share no in-process state; consistency is up to the remote backend.
- The backend's own semantics are not modelled. These include per-voter upsert and what a `None` choice does to a stored choice, which belong to the remote service.

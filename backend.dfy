/**
 * The record-or-update call the bot makes against the tally backend
 * (`create_or_update_user`). The HTTP statuses the backend answers with are
 * inputs; the requests made are returned as a trace.
 */
module Backend {
  import opened Wrappers
  import opened Text

  /** A request to the backend, with the JSON body it carries. */
  datatype BackendCall =
    | CreateUser(id: string, firstName: string, username: Option<string>, choice: Option<string>)  // POST /create-user/
    | UpdateUserChoice(id: string, choice: Option<string>)                                         // POST /update-user-choice/

  /** What `create_or_update_user` returns: `False`, or `None` by falling off its end (never `True`). */
  datatype RecordReturn = ReturnsNone | ReturnsFalse

  /** Status of a successful create. */
  const Created: int := 201
  /** Status of a successful update. */
  const Ok: int := 200

  /** The requests made, for the given statuses. */
  function RecordCalls(userId: int, fullName: string, username: Option<string>, choice: Option<string>,
                       createStatus: int): (calls: seq<BackendCall>)
    ensures 1 <= |calls| <= 2
    ensures calls[0] == CreateUser(IntText(userId), fullName, username, choice)
    ensures |calls| == 2 <==> createStatus != Created
    ensures |calls| == 2 ==> calls[1] == UpdateUserChoice(calls[0].id, calls[0].choice)
  {
    var create := CreateUser(IntText(userId), fullName, username, choice);
    if createStatus == Created then [create] else [create, UpdateUserChoice(IntText(userId), choice)]
  }

  /** The value returned, for the given statuses. */
  function RecordResult(createStatus: int, updateStatus: int): (result: RecordReturn)
    ensures createStatus == Created ==> result == ReturnsNone
    ensures createStatus != Created ==> (result == ReturnsFalse <==> updateStatus != Ok)
  {
    if createStatus != Created && updateStatus != Ok then ReturnsFalse else ReturnsNone
  }

  /**
   * Creates the user record with the given choice; when the create is not
   * answered 201, updates the existing record's choice instead, and returns
   * `False` when that update is not answered 200. The update status is only
   * consulted when the update request is made.
   */
  method CreateOrUpdateUser(userId: int, fullName: string, username: Option<string>, choice: Option<string>,
                            createStatus: int, updateStatus: int)
    returns (calls: seq<BackendCall>, result: RecordReturn)
    ensures calls == RecordCalls(userId, fullName, username, choice, createStatus)
    ensures result == RecordResult(createStatus, updateStatus)
  {
    calls := [CreateUser(IntText(userId), fullName, username, choice)];
    if createStatus != Created {
      calls := calls + [UpdateUserChoice(IntText(userId), choice)];
      if updateStatus != Ok {
        // both response bodies are logged here
        return calls, ReturnsFalse;
      }
    }
    result := ReturnsNone;
  }
}

/**
 * Message-level helpers: the exact-text command filter that routes the
 * broadcast command, and the display name sent to the backend.
 */
module Commands {
  import opened Wrappers

  /** `TextEqualsFilter(texts)`: passes a message whose text is one of `texts`. */
  datatype TextEqualsFilter = TextEqualsFilter(texts: seq<string>) {

    /** `message.text in self.texts`; a message without text (`None`) never passes. */
    function Call(text: Option<string>): (passes: bool)
      ensures passes <==> exists i :: 0 <= i < |texts| && text == Some(texts[i])
    {
      match text
      case None => false
      case Some(t) => t in texts
    }
  }

  /** The filter on the broadcast handler. */
  const SendPollFilter: TextEqualsFilter := TextEqualsFilter(["send_poll", "/send_poll", "poll"])

  /** The broadcast is triggered by exactly three texts, compared whole and case-sensitively. */
  lemma SendPollFilterPasses(text: Option<string>)
    ensures SendPollFilter.Call(text) <==>
      text == Some("send_poll") || text == Some("/send_poll") || text == Some("poll")
  {
  }

  /**
   * `f"{first_name} {last_name if last_name else ''}"`: the first name, one
   * space, then the last name or nothing. A user without a last name gets a
   * trailing space.
   */
  function FullName(firstName: string, lastName: Option<string>): (name: string)
    ensures |name| == |firstName| + 1 + |lastName.GetOr("")|
    ensures name[..|firstName|] == firstName
    ensures name[|firstName|] == ' '
    ensures name[|firstName| + 1..] == lastName.GetOr("")
    ensures lastName.GetOr("") == "" ==> name == firstName + " "
  {
    firstName + " " + (if lastName.Some? && lastName.value != "" then lastName.value else "")
  }
}

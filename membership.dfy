/**
 * Channel membership as the chat platform reports it, the gate that the vote
 * handler consults (`check_is_user_subscribed_the_channel`), and the
 * member-to-non-member transition that triggers the membership listener.
 */
module Membership {

  /** The status of a user in the channel; a restricted user may or may not still be a member. */
  datatype MemberStatus =
    | Creator
    | Administrator
    | Member
    | Restricted(isMember: bool)
    | Left
    | Kicked
  {
    /** The status string the platform reports. */
    function Text(): string {
      match this
      case Creator => "creator"
      case Administrator => "administrator"
      case Member => "member"
      case Restricted(_) => "restricted"
      case Left => "left"
      case Kicked => "kicked"
    }
  }

  /** The platform's notion of channel membership (aiogram's `IS_MEMBER`; its complement is `IS_NOT_MEMBER`). */
  predicate IsMember(status: MemberStatus) {
    match status
    case Creator => true
    case Administrator => true
    case Member => true
    case Restricted(isMember) => isMember
    case Left => false
    case Kicked => false
  }

  /**
   * The membership gate. Despite its name, `true` means the user is NOT
   * subscribed: exactly the status "left" closes the gate. Kicked users and
   * restricted non-members are non-members that the gate lets through.
   */
  function CheckIsUserSubscribed(status: MemberStatus): (notSubscribed: bool)
    ensures notSubscribed <==> status == Left
    ensures notSubscribed ==> !IsMember(status)
    ensures !IsMember(status) && !notSubscribed <==> status == Kicked || status == Restricted(false)
  {
    status.Text() == "left"
  }

  /** The listener's filter `IS_MEMBER >> IS_NOT_MEMBER`: a member became a non-member. */
  predicate LeftTheChannel(oldStatus: MemberStatus, newStatus: MemberStatus) {
    IsMember(oldStatus) && !IsMember(newStatus)
  }
}

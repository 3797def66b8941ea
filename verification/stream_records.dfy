/**
 * The chat platform's objects, reduced to the fields the components read:
 * users, channel members, reactions and messages. The platform itself
 * (delivery, presence, read receipts) is outside the model; these records are
 * what its client library hands to the components.
 */
module StreamRecords {
  import opened Js

  /** A platform user as seen through `member.user` or `message.user`. */
  datatype ChatUser = ChatUser(id: string, name: Option<string>, image: Option<string>, online: bool)

  /** A channel member; `user` may be missing. */
  datatype Member = Member(user: Option<ChatUser>)

  datatype Reaction = Reaction(kind: string)

  datatype Message = Message(
    id: string,
    text: Option<string>,
    status: string,              // "sending" while the platform has not acknowledged it
    readBy: seq<string>,         // ids of the users who read it; a missing list reads as empty
    ownReactions: seq<Reaction>,
    latestReactions: seq<Reaction>,
    deletedAt: Option<string>,
    user: Option<ChatUser>
  )

  /** `m.user?.id`: the member's user id, or undefined when the member has no user. */
  function UserIdOf(m: Member): Option<string> {
    if m.user.Some? then Some(m.user.value.id) else None
  }

  /**
   * `members.find(m => m.user?.id !== me)`, as an index: the first member whose user id
   * differs from `me` (an undefined `me` only equals a member without a user).
   */
  function FirstOther(members: seq<Member>, me: Option<string>): (r: Option<nat>)
    ensures r.Some? ==> r.value < |members| && UserIdOf(members[r.value]) != me
    ensures r.Some? ==> forall j :: 0 <= j < r.value ==> UserIdOf(members[j]) == me
    ensures r.None? <==> forall j :: 0 <= j < |members| ==> UserIdOf(members[j]) == me
  {
    if members == [] then None
    else if UserIdOf(members[0]) != me then Some(0)
    else
      match FirstOther(members[1..], me)
      case None => None
      case Some(i) => Some(i + 1)
  }

  /** The member itself, as `find` returns it. */
  function OtherMember(members: seq<Member>, me: Option<string>): Option<Member> {
    match FirstOther(members, me)
    case None => None
    case Some(i) => Some(members[i])
  }
}

/**
 * The discover page: the set of users a friend request has already gone to,
 * and the recommended-users list with its per-user request button.
 */
module Discover {
  import opened Js

  /** An outgoing friend request, reduced to its recipient's `_id`. */
  datatype FriendRequest = FriendRequest(recipientId: string)

  /** A recommended user, reduced to its `_id`. */
  datatype Candidate = Candidate(id: string)

  /** The set built by the effect's loop: one id per request, in any order, duplicates merged. */
  method CollectRecipientIds(reqs: seq<FriendRequest>) returns (ids: set<string>)
    ensures forall id :: id in ids <==> exists i :: 0 <= i < |reqs| && reqs[i].recipientId == id
  {
    ids := {};
    for i := 0 to |reqs|
      invariant forall id :: id in ids <==> exists j :: 0 <= j < i && reqs[j].recipientId == id
    {
      ids := ids + {reqs[i].recipientId};
    }
  }

  /** The page's `outgoingRequestsIds`. */
  class DiscoverState {
    var outgoingIds: set<string>

    constructor ()
      ensures outgoingIds == {}
    {
      outgoingIds := {};
    }

    /**
     * The effect run when the outgoing requests arrive: a non-empty list
     * replaces the set by exactly its recipients; a missing or empty list
     * leaves the previous set in place.
     */
    method OnOutgoingRequests(reqs: Option<seq<FriendRequest>>)
      modifies this
      ensures reqs.Some? && |reqs.value| > 0 ==>
                forall id :: id in outgoingIds <==> exists i :: 0 <= i < |reqs.value| && reqs.value[i].recipientId == id
      ensures !(reqs.Some? && |reqs.value| > 0) ==> outgoingIds == old(outgoingIds)
    {
      if reqs.Some? && |reqs.value| > 0 {
        outgoingIds := CollectRecipientIds(reqs.value);
      }
    }
  }

  /** The request a click sends: a friend request to that user. */
  datatype SendFriendRequest = SendFriendRequest(userId: string)

  /** One user's row: whether the request was sent, whether the button is disabled, and what a click sends. */
  datatype Row = Row(userId: string, sent: bool, disabled: bool, onClick: SendFriendRequest)

  /** The spinner, the empty message, or one row per recommended user. */
  datatype ListView = Spinner | NoRecommendations | Rows(rows: seq<Row>)

  /**
   * The list: the spinner while users load, then the empty message when there are
   * none (a missing answer counts as none), else one row per user in order.
   */
  function DiscoverList(loadingUsers: bool, users: Option<seq<Candidate>>, outgoingIds: set<string>, isPending: bool): (v: ListView)
    ensures v.Spinner? <==> loadingUsers
    ensures v.NoRecommendations? <==> !loadingUsers && (users.None? || users.value == [])
    ensures v.Rows? ==> users.Some? && |v.rows| == |users.value|
    ensures v.Rows? ==> forall i :: 0 <= i < |v.rows| ==>
              && v.rows[i].userId == users.value[i].id
              && (v.rows[i].sent <==> users.value[i].id in outgoingIds)
              && (v.rows[i].disabled <==> users.value[i].id in outgoingIds || isPending)
              && v.rows[i].onClick == SendFriendRequest(users.value[i].id)
  {
    var list := if users.Some? then users.value else [];
    if loadingUsers then Spinner
    else if |list| == 0 then NoRecommendations
    else Rows(seq(|list|, i requires 0 <= i < |list| =>
                    var sent := list[i].id in outgoingIds;
                    Row(list[i].id, sent, sent || isPending, SendFriendRequest(list[i].id))))
  }
}

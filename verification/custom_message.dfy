/**
 * The message bubble: delivery status, reaction toggling, the emoji tables,
 * the reaction badge, links in the message text, and the menu flags.
 */
module MessageView {
  import opened Js
  import opened StreamRecords

  // ---------------------------------------------------------------------------
  // Delivery status

  datatype Status = Sending | Read | Delivered | Sent

  /** Some entry of `readBy` is a user other than `me`. */
  predicate ReadByOthers(readBy: seq<string>, me: string) {
    exists i :: 0 <= i < |readBy| && readBy[i] != me
  }

  /** The first member whose user is not `me` exists, has a user, and that user is online. */
  predicate OtherOnline(members: seq<Member>, me: string) {
    match OtherMember(members, Some(me))
    case None => false
    case Some(m) => m.user.Some? && m.user.value.online
  }

  /**
   * The ticks shown under a message: "sending" while the platform has not
   * acknowledged it, then "read" when some other user read it, then "delivered"
   * when the other member is online, and "sent" otherwise.
   */
  function MessageStatus(msg: Message, members: seq<Member>, me: string): (s: Status)
    ensures msg.status == "sending" ==> s == Sending
    ensures msg.status != "sending" ==> (s == Read <==> ReadByOthers(msg.readBy, me))
    ensures msg.status != "sending" && !ReadByOthers(msg.readBy, me) ==>
              (s == Delivered <==> OtherOnline(members, me))
    ensures s == Sent <==>
              msg.status != "sending" && !ReadByOthers(msg.readBy, me) && !OtherOnline(members, me)
  {
    if msg.status == "sending" then Sending
    else if |Filter(msg.readBy, me)| > 0 then Read
    else if OtherOnline(members, me) then Delivered
    else Sent
  }

  /** `readBy.filter(u => u.id !== me)`. */
  function Filter(readBy: seq<string>, me: string): (r: seq<string>)
    ensures |r| > 0 <==> ReadByOthers(readBy, me)
    ensures forall i :: 0 <= i < |r| ==> r[i] != me
  {
    if readBy == [] then []
    else
      var rest := Filter(readBy[1..], me);
      assert ReadByOthers(readBy[1..], me) ==> ReadByOthers(readBy, me) by {
        if ReadByOthers(readBy[1..], me) {
          var i :| 0 <= i < |readBy[1..]| && readBy[1..][i] != me;
          assert readBy[i + 1] != me;
        }
      }
      assert readBy[0] == me && ReadByOthers(readBy, me) ==> ReadByOthers(readBy[1..], me) by {
        if readBy[0] == me && ReadByOthers(readBy, me) {
          var i :| 0 <= i < |readBy| && readBy[i] != me;
          assert i > 0 && readBy[1..][i - 1] != me;
        }
      }
      if readBy[0] != me then [readBy[0]] + rest else rest
  }

  /** A read receipt from `me` alone never turns the ticks blue. */
  lemma OwnReadIsNotRead(msg: Message, members: seq<Member>, me: string)
    requires forall i :: 0 <= i < |msg.readBy| ==> msg.readBy[i] == me
    ensures MessageStatus(msg, members, me) != Read
  {
  }

  /** The tick icon, shown only under the user's own messages. */
  datatype Tick = Clock | SingleGray | DoubleGray | DoubleBlue

  function StatusTick(isMine: bool, s: Status): (t: Option<Tick>)
    ensures t.None? <==> !isMine
    ensures isMine ==> (t == Some(Clock) <==> s == Sending)
    ensures isMine ==> (t == Some(DoubleBlue) <==> s == Read)
    ensures isMine ==> (t == Some(DoubleGray) <==> s == Delivered)
  {
    if !isMine then None
    else match s
      case Sending => Some(Clock)
      case Read => Some(DoubleBlue)
      case Delivered => Some(DoubleGray)
      case Sent => Some(SingleGray)
  }

  // ---------------------------------------------------------------------------
  // Reactions

  const ThumbsUp: string := "\U{1F44D}"
  const Heart: string := "\U{2764}\U{FE0F}"
  const Laugh: string := "\U{1F602}"
  const Surprised: string := "\U{1F62E}"
  const Crying: string := "\U{1F622}"
  const Pray: string := "\U{1F64F}"

  /** The reactions offered by the picker, in order. */
  const ReactionEmojis: seq<string> := [ThumbsUp, Heart, Laugh, Surprised, Crying, Pray]

  const EmojiToType: map<string, string> := map[
    ThumbsUp := "thumbs_up", Heart := "love", Laugh := "haha",
    Surprised := "wow", Crying := "sad", Pray := "pray"]

  const TypeToEmoji: map<string, string> := map[
    "thumbs_up" := ThumbsUp, "love" := Heart, "haha" := Laugh,
    "wow" := Surprised, "sad" := Crying, "pray" := Pray]

  /** The emoji table covers exactly the picker's six emojis. */
  lemma EmojiTableCoversPicker()
    ensures EmojiToType.Keys == set e | e in ReactionEmojis
    ensures |ReactionEmojis| == 6 && |EmojiToType.Keys| == 6
  {
  }

  /** Reading an emoji's type and then that type's emoji gives the emoji back. */
  lemma EmojiToTypeInverse()
    ensures forall e :: e in EmojiToType ==> EmojiToType[e] in TypeToEmoji && TypeToEmoji[EmojiToType[e]] == e
  {
  }

  /** Reading a type's emoji and then that emoji's type gives the type back. */
  lemma TypeToEmojiInverse()
    ensures forall t :: t in TypeToEmoji ==> TypeToEmoji[t] in EmojiToType && EmojiToType[TypeToEmoji[t]] == t
  {
  }

  /** How a reaction type is drawn in the badge: its emoji, or the raw type when the table lacks it. */
  function DisplayReaction(kind: string): (d: string)
    ensures kind in TypeToEmoji ==> d == TypeToEmoji[kind] && d in EmojiToType && EmojiToType[d] == kind
    ensures kind !in TypeToEmoji ==> d == kind
  {
    if kind in TypeToEmoji then TypeToEmoji[kind] else kind
  }

  predicate HasReacted(own: seq<Reaction>, kind: string) {
    exists i :: 0 <= i < |own| && own[i].kind == kind
  }

  /** What a click on a picker emoji asks the platform to do. */
  datatype ReactionRequest = SendReaction(messageId: string, kind: string) | DeleteReaction(messageId: string, kind: string)

  /** A click removes the user's reaction of that type when there is one and adds it otherwise. */
  function ReactionToggle(emoji: string, msg: Message): (r: ReactionRequest)
    requires emoji in EmojiToType
    ensures r.messageId == msg.id && r.kind == EmojiToType[emoji]
    ensures r.DeleteReaction? <==> HasReacted(msg.ownReactions, EmojiToType[emoji])
  {
    var kind := EmojiToType[emoji];
    if HasReacted(msg.ownReactions, kind) then DeleteReaction(msg.id, kind) else SendReaction(msg.id, kind)
  }

  /** The set of reaction types the user has on a message. */
  function OwnKinds(own: seq<Reaction>): set<string> {
    set i | 0 <= i < |own| :: own[i].kind
  }

  /** The platform's effect of a request on the user's reaction types: add or remove that type. */
  function Apply(kinds: set<string>, r: ReactionRequest): set<string> {
    match r
    case SendReaction(_, k) => kinds + {k}
    case DeleteReaction(_, k) => kinds - {k}
  }

  /**
   * A click flips the user's reaction of the clicked type and touches no other type;
   * a second click on the same emoji restores the original set.
   */
  lemma ReactionToggleFlips(emoji: string, msg: Message)
    requires emoji in EmojiToType
    ensures var k := EmojiToType[emoji];
            var after := Apply(OwnKinds(msg.ownReactions), ReactionToggle(emoji, msg));
            && (k in after <==> k !in OwnKinds(msg.ownReactions))
            && after - {k} == OwnKinds(msg.ownReactions) - {k}
  {
    var k := EmojiToType[emoji];
    if HasReacted(msg.ownReactions, k) {
      var i :| 0 <= i < |msg.ownReactions| && msg.ownReactions[i].kind == k;
      assert k in OwnKinds(msg.ownReactions);
    } else {
      assert k !in OwnKinds(msg.ownReactions);
    }
  }

  /** The reaction badge: at most the first three reactions, and the total count. */
  datatype Badge = Badge(shown: seq<string>, count: nat)

  function ReactionBadge(latest: seq<Reaction>): (b: Option<Badge>)
    ensures b.None? <==> latest == []
    ensures b.Some? ==> b.value.count == |latest|
    ensures b.Some? ==> |b.value.shown| == if |latest| < 3 then |latest| else 3
    ensures b.Some? ==> forall i :: 0 <= i < |b.value.shown| ==> b.value.shown[i] == DisplayReaction(latest[i].kind)
  {
    if latest == [] then None
    else
      var first := if |latest| < 3 then latest else latest[..3];
      Some(Badge(seq(|first|, i requires 0 <= i < |first| => DisplayReaction(first[i].kind)), |latest|))
  }

  // ---------------------------------------------------------------------------
  // Links in the message text: `text.split(/(https?:\/\/[^\s]+)/g)`

  /** The pattern `https?://` followed by one non-whitespace character matches at position q. */
  predicate UrlStartsAt(s: string, q: int) {
    0 <= q &&
    ((q + 8 < |s| && s[q..q + 8] == "https://" && !IsSpace(s[q + 8])) ||
     (q + 7 < |s| && s[q..q + 7] == "http://" && !IsSpace(s[q + 7])))
  }

  /** End of the run of non-whitespace characters that starts at k (the greedy `[^\s]+`). */
  function RunEnd(s: string, k: nat): (e: nat)
    requires k <= |s|
    ensures k <= e <= |s|
    ensures forall j :: k <= j < e ==> !IsSpace(s[j])
    ensures e < |s| ==> IsSpace(s[e])
    decreases |s| - k
  {
    if k == |s| || IsSpace(s[k]) then k else RunEnd(s, k + 1)
  }

  /** Where the match that starts at q ends. */
  function MatchEnd(s: string, q: nat): (e: nat)
    requires UrlStartsAt(s, q)
    ensures q + 8 <= e <= |s|
  {
    if q + 8 < |s| && s[q..q + 8] == "https://" && !IsSpace(s[q + 8]) then RunEnd(s, q + 8)
    else RunEnd(s, q + 7)
  }

  /**
   * The split loop of the regular-expression split: p is where the current plain
   * piece began, q the position being tried. A match at q emits the plain piece
   * s[p..q] and the captured URL, and the scan resumes after the URL.
   */
  function SplitFrom(s: string, p: nat, q: nat): seq<string>
    requires p <= q <= |s|
    decreases |s| - q
  {
    if q == |s| then [s[p..]]
    else if UrlStartsAt(s, q) then
      var e := MatchEnd(s, q);
      [s[p..q], s[q..e]] + SplitFrom(s, e, e)
    else SplitFrom(s, p, q + 1)
  }

  function SplitUrls(s: string): seq<string> {
    SplitFrom(s, 0, 0)
  }

  function Join(parts: seq<string>): string {
    if parts == [] then "" else parts[0] + Join(parts[1..])
  }

  /** `part.match(/https?:\/\/[^\s]+/)`: the pattern matches somewhere in the part. */
  predicate ContainsUrl(t: string) {
    exists j :: 0 <= j < |t| && UrlStartsAt(t, j)
  }

  /** A URL token: `http://` or `https://` and then only non-whitespace, at least one. */
  predicate IsUrlToken(t: string) {
    UrlStartsAt(t, 0) && forall j :: 7 <= j < |t| ==> !IsSpace(t[j])
  }

  /** The pieces alternate plain, URL, plain, ...: an odd count, URLs at odd positions. */
  predicate WellSplit(parts: seq<string>) {
    && |parts| % 2 == 1
    && (forall k :: 0 <= k < |parts| && k % 2 == 1 ==> IsUrlToken(parts[k]))
    && (forall k :: 0 <= k < |parts| && k % 2 == 0 ==> !ContainsUrl(parts[k]))
  }

  lemma JoinPair(a: string, b: string, rest: seq<string>)
    ensures Join([a, b] + rest) == a + b + Join(rest)
  {
    assert ([a, b] + rest)[1..] == [b] + rest;
    assert ([b] + rest)[1..] == rest;
  }

  /** A match inside a piece of s is a match of s at the shifted position. */
  lemma UrlInSlice(s: string, p: nat, r: nat, j: nat)
    requires p <= r <= |s| && UrlStartsAt(s[p..r], j)
    ensures UrlStartsAt(s, p + j)
  {
    var t := s[p..r];
    if j + 8 < |t| && t[j..j + 8] == "https://" && !IsSpace(t[j + 8]) {
      assert forall k | j <= k <= j + 8 :: t[k] == s[p + k];
      assert t[j..j + 8] == s[p + j..p + j + 8];
    } else {
      assert forall k | j <= k <= j + 7 :: t[k] == s[p + k];
      assert t[j..j + 7] == s[p + j..p + j + 7];
    }
  }

  lemma {:induction false} SplitFromJoins(s: string, p: nat, q: nat)
    requires p <= q <= |s|
    ensures Join(SplitFrom(s, p, q)) == s[p..]
    decreases |s| - q
  {
    if q == |s| {
      assert Join([s[p..]]) == s[p..] + Join([]);
    } else if UrlStartsAt(s, q) {
      var e := MatchEnd(s, q);
      SplitFromJoins(s, e, e);
      JoinPair(s[p..q], s[q..e], SplitFrom(s, e, e));
      assert s[p..q] + s[q..e] + s[e..] == s[p..];
    } else {
      SplitFromJoins(s, p, q + 1);
    }
  }

  lemma {:induction false} SplitFromShape(s: string, p: nat, q: nat)
    requires p <= q <= |s|
    requires forall j :: p <= j < q ==> !UrlStartsAt(s, j)
    ensures WellSplit(SplitFrom(s, p, q))
    decreases |s| - q
  {
    var parts := SplitFrom(s, p, q);
    if q == |s| {
      PlainPieceHasNoUrl(s, p, q);
      assert s[p..] == s[p..q];
    } else if UrlStartsAt(s, q) {
      var e := MatchEnd(s, q);
      SplitFromShape(s, e, e);
      PlainPieceHasNoUrl(s, p, q);
      UrlPieceIsToken(s, q);
      var rest := SplitFrom(s, e, e);
      assert parts == [s[p..q], s[q..e]] + rest;
      forall k | 0 <= k < |parts|
        ensures k % 2 == 1 ==> IsUrlToken(parts[k])
        ensures k % 2 == 0 ==> !ContainsUrl(parts[k])
      {
        if k >= 2 {
          assert parts[k] == rest[k - 2];
        }
      }
    } else {
      SplitFromShape(s, p, q + 1);
    }
  }

  lemma PlainPieceHasNoUrl(s: string, p: nat, q: nat)
    requires p <= q <= |s|
    requires forall j :: p <= j < q ==> !UrlStartsAt(s, j)
    ensures !ContainsUrl(s[p..q])
  {
    if ContainsUrl(s[p..q]) {
      var j :| 0 <= j < |s[p..q]| && UrlStartsAt(s[p..q], j);
      UrlInSlice(s, p, q, j);
      assert false;
    }
  }

  lemma UrlPieceIsToken(s: string, q: nat)
    requires UrlStartsAt(s, q)
    ensures IsUrlToken(s[q..MatchEnd(s, q)])
  {
    var e := MatchEnd(s, q);
    var t := s[q..e];
    if q + 8 < |s| && s[q..q + 8] == "https://" && !IsSpace(s[q + 8]) {
      assert t[..8] == s[q..q + 8];
      assert forall j :: 8 <= j < |t| ==> t[j] == s[q + j];
      assert t[7] == '/';
    } else {
      assert t[..7] == s[q..q + 7];
      assert forall j :: 7 <= j < |t| ==> t[j] == s[q + j];
    }
  }

  /**
   * Splitting the text around URLs loses nothing: the pieces join back to the text,
   * every odd piece is a URL token and no even piece contains one. That the
   * tokens are the leftmost, longest matches is `SplitUrlsLeftmostGreedy`.
   */
  lemma SplitUrlsCorrect(s: string)
    ensures Join(SplitUrls(s)) == s
    ensures WellSplit(SplitUrls(s))
  {
    SplitFromJoins(s, 0, 0);
    SplitFromShape(s, 0, 0);
  }

  /** s[o..o + |t|] is t and no match of the pattern starts inside it: text the scan passes over. */
  predicate PlainAt(s: string, o: nat, t: string) {
    && o + |t| <= |s| && s[o..o + |t|] == t
    && forall j :: o <= j < o + |t| ==> !UrlStartsAt(s, j)
  }

  /** s[o..o + |t|] is t, a match starts at o, and t is the whole whitespace-free run there. */
  predicate UrlRunAt(s: string, o: nat, t: string) {
    && o + |t| <= |s| && s[o..o + |t|] == t && UrlStartsAt(s, o)
    && (forall j :: o <= j < o + |t| ==> !IsSpace(s[j]))
    && (o + |t| == |s| || IsSpace(s[o + |t|]))
  }

  /**
   * How a global regular-expression split cuts s from position p: plain text up
   * to the leftmost match (or to the end of the text), then that match taken as
   * far as it goes, up to whitespace or the end, and the same again after it.
   */
  predicate LeftmostGreedySplit(s: string, p: nat, parts: seq<string>)
    decreases |parts|
  {
    && |parts| >= 1 && PlainAt(s, p, parts[0])
    && if |parts| == 1 then p + |parts[0]| == |s|
       else && |parts| >= 3 && UrlRunAt(s, p + |parts[0]|, parts[1])
            && LeftmostGreedySplit(s, p + |parts[0]| + |parts[1]|, parts[2..])
  }

  /** The greedy run is the only whitespace-free stretch from k that ends at whitespace or at the end of the text. */
  lemma {:induction false} RunEndUnique(s: string, k: nat, e: nat)
    requires k <= e <= |s|
    requires forall j :: k <= j < e ==> !IsSpace(s[j])
    requires e == |s| || IsSpace(s[e])
    ensures RunEnd(s, k) == e
    decreases e - k
  {
    if k < e {
      RunEndUnique(s, k + 1, e);
    }
  }

  /** A match runs from its `h` to the end of the whitespace-free run it starts. */
  lemma MatchEndIsRun(s: string, q: nat)
    requires UrlStartsAt(s, q)
    ensures MatchEnd(s, q) == RunEnd(s, q)
  {
    var e := MatchEnd(s, q);
    if q + 8 < |s| && s[q..q + 8] == "https://" && !IsSpace(s[q + 8]) {
      assert forall j :: q <= j < q + 8 ==> s[j] == "https://"[j - q];
    } else {
      assert forall j :: q <= j < q + 7 ==> s[j] == "http://"[j - q];
    }
    RunEndUnique(s, q, e);
  }

  lemma {:induction false} SplitFromLeftmostGreedy(s: string, p: nat, q: nat)
    requires p <= q <= |s|
    requires forall j :: p <= j < q ==> !UrlStartsAt(s, j)
    ensures LeftmostGreedySplit(s, p, SplitFrom(s, p, q))
    decreases |s| - q
  {
    if q == |s| {
      assert s[p..p + |s[p..]|] == s[p..];
    } else if UrlStartsAt(s, q) {
      var e := MatchEnd(s, q);
      MatchEndIsRun(s, q);
      SplitFromLeftmostGreedy(s, e, e);
      var parts := SplitFrom(s, p, q);
      assert parts[2..] == SplitFrom(s, e, e);
    } else {
      SplitFromLeftmostGreedy(s, p, q + 1);
    }
  }

  /** With no match from q on, the scan emits the rest of the text as one plain piece. */
  lemma {:induction false} SplitFromNoMatch(s: string, p: nat, q: nat)
    requires p <= q <= |s|
    requires forall j :: q <= j < |s| ==> !UrlStartsAt(s, j)
    ensures SplitFrom(s, p, q) == [s[p..]]
    decreases |s| - q
  {
    if q < |s| {
      SplitFromNoMatch(s, p, q + 1);
    }
  }

  /** The scan passes over positions without a match and cuts at the first match o. */
  lemma {:induction false} SplitFromNextMatch(s: string, p: nat, q: nat, o: nat)
    requires p <= q <= o <= |s| && UrlStartsAt(s, o)
    requires forall j :: q <= j < o ==> !UrlStartsAt(s, j)
    ensures SplitFrom(s, p, q) == [s[p..o], s[o..MatchEnd(s, o)]] + SplitFrom(s, MatchEnd(s, o), MatchEnd(s, o))
    decreases o - q
  {
    if q < o {
      SplitFromNextMatch(s, p, q + 1, o);
    }
  }

  /** Pieces that are the plain text up to the first match, the match, and the split after it are the split. */
  lemma SplitFromCut(s: string, p: nat, o: nat, parts: seq<string>)
    requires p <= o <= |s| && UrlStartsAt(s, o)
    requires forall j :: p <= j < o ==> !UrlStartsAt(s, j)
    requires |parts| >= 2 && parts[0] == s[p..o] && parts[1] == s[o..MatchEnd(s, o)]
    requires parts[2..] == SplitFrom(s, MatchEnd(s, o), MatchEnd(s, o))
    ensures parts == SplitFrom(s, p, p)
  {
    SplitFromNextMatch(s, p, p, o);
    assert parts == [parts[0], parts[1]] + parts[2..];
  }

  lemma {:induction false} LeftmostGreedyIsSplitFrom(s: string, p: nat, parts: seq<string>)
    requires p <= |s|
    requires LeftmostGreedySplit(s, p, parts)
    ensures parts == SplitFrom(s, p, p)
    decreases |parts|
  {
    var o := p + |parts[0]|;
    assert PlainAt(s, p, parts[0]);
    if |parts| == 1 {
      assert o == |s| && parts[0] == s[p..];
      SplitFromNoMatch(s, p, p);
    } else {
      assert UrlRunAt(s, o, parts[1]);
      var e := o + |parts[1]|;
      assert MatchEnd(s, o) == e by {
        MatchEndIsRun(s, o);
        RunEndUnique(s, o, e);
      }
      assert parts[0] == s[p..o] && parts[1] == s[o..e];
      LeftmostGreedyIsSplitFrom(s, e, parts[2..]);
      SplitFromCut(s, p, o, parts);
    }
  }

  /**
   * The split is the leftmost-longest one and no other: a list of pieces cuts s
   * at each leftmost match, every match running to whitespace or to the end of
   * the text, exactly when it is `SplitUrls(s)`. So every link carries the whole
   * URL as written.
   */
  lemma SplitUrlsLeftmostGreedy(s: string, parts: seq<string>)
    ensures LeftmostGreedySplit(s, 0, parts) <==> parts == SplitUrls(s)
  {
    if LeftmostGreedySplit(s, 0, parts) {
      LeftmostGreedyIsSplitFrom(s, 0, parts);
    }
    if parts == SplitUrls(s) {
      SplitFromLeftmostGreedy(s, 0, 0);
    }
  }

  /** A rendered piece of message text: plain text or a link. */
  datatype Piece = Text(text: string) | Link(href: string)

  function PieceText(x: Piece): string {
    match x
    case Text(t) => t
    case Link(h) => h
  }

  function RenderText(text: Option<string>): seq<Piece> {
    if !Truthy(text) then []
    else
      var parts := SplitUrls(text.value);
      seq(|parts|, k requires 0 <= k < |parts| => if ContainsUrl(parts[k]) then Link(parts[k]) else Text(parts[k]))
  }

  function JoinPieces(ps: seq<Piece>): string {
    if ps == [] then "" else PieceText(ps[0]) + JoinPieces(ps[1..])
  }

  lemma {:induction false} JoinPiecesText(ps: seq<Piece>, parts: seq<string>)
    requires |ps| == |parts|
    requires forall k :: 0 <= k < |ps| ==> PieceText(ps[k]) == parts[k]
    ensures JoinPieces(ps) == Join(parts)
  {
    if ps != [] {
      JoinPiecesText(ps[1..], parts[1..]);
    }
  }

  /**
   * The rendered message text shows every character of the text, in order; the
   * links are exactly the odd pieces, each an `http(s)://` token, and the
   * pieces are the leftmost-longest split, so a link's href is the whole URL.
   */
  lemma RenderTextCorrect(text: Option<string>)
    ensures JoinPieces(RenderText(text)) == if Truthy(text) then text.value else ""
    ensures forall k :: 0 <= k < |RenderText(text)| ==>
              (RenderText(text)[k].Link? <==> k % 2 == 1) &&
              (RenderText(text)[k].Link? ==> IsUrlToken(RenderText(text)[k].href))
    ensures Truthy(text) ==>
              var ps := RenderText(text);
              LeftmostGreedySplit(text.value, 0, seq(|ps|, k requires 0 <= k < |ps| => PieceText(ps[k])))
  {
    if Truthy(text) {
      var parts := SplitUrls(text.value);
      SplitUrlsCorrect(text.value);
      SplitUrlsLeftmostGreedy(text.value, parts);
      var ps := RenderText(text);
      assert seq(|ps|, k requires 0 <= k < |ps| => PieceText(ps[k])) == parts;
      forall k | 0 <= k < |ps| ensures (ps[k].Link? <==> k % 2 == 1) {
        if k % 2 == 1 {
          assert IsUrlToken(parts[k]) && UrlStartsAt(parts[k], 0);
        }
      }
      JoinPiecesText(ps, parts);
    }
  }

  // ---------------------------------------------------------------------------
  // What the bubble renders

  datatype MenuItem = ReplyItem | CopyItem | ReactItem | DeleteItem

  /** The drop-down menu: Delete is offered only on the user's own messages. */
  function MenuItems(isMine: bool): (items: seq<MenuItem>)
    ensures DeleteItem in items <==> isMine
    ensures |items| >= 3 && items[..3] == [ReplyItem, CopyItem, ReactItem]
  {
    [ReplyItem, CopyItem, ReactItem] + (if isMine then [DeleteItem] else [])
  }

  datatype MessageRender =
    | DeletedPlaceholder(alignRight: bool)
    | Bubble(alignRight: bool, menu: seq<MenuItem>, pieces: seq<Piece>, badge: Option<Badge>, tick: Option<Tick>)

  /** A deleted message shows only the placeholder; any other shows the full bubble. */
  function RenderMessage(msg: Message, isMine: bool, status: Status): (v: MessageRender)
    ensures v.alignRight == isMine
    ensures v.DeletedPlaceholder? <==> Truthy(msg.deletedAt)
    ensures v.Bubble? ==> (DeleteItem in v.menu <==> isMine) && (v.tick.None? <==> !isMine)
    ensures v.Bubble? ==> (v.badge.None? <==> msg.latestReactions == [])
    ensures v.Bubble? ==> v.menu == MenuItems(isMine) && v.pieces == RenderText(msg.text)
    ensures v.Bubble? ==> v.badge == ReactionBadge(msg.latestReactions) && v.tick == StatusTick(isMine, status)
  {
    if Truthy(msg.deletedAt) then DeletedPlaceholder(isMine)
    else Bubble(isMine, MenuItems(isMine), RenderText(msg.text), ReactionBadge(msg.latestReactions), StatusTick(isMine, status))
  }

  // ---------------------------------------------------------------------------
  // The bubble's two flags and its handlers

  class MessageMenu {
    var showMenu: bool
    var showReactions: bool

    constructor ()
      ensures !showMenu && !showReactions
    {
      showMenu, showReactions := false, false;
    }

    method ToggleMenu()
      modifies this
      ensures showMenu == !old(showMenu) && showReactions == old(showReactions)
    {
      showMenu := !showMenu;
    }

    method ToggleReactions()
      modifies this
      ensures showReactions == !old(showReactions) && showMenu == old(showMenu)
    {
      showReactions := !showReactions;
    }

    /** The pointer leaving the bubble closes both the menu and the picker. */
    method MouseLeave()
      modifies this
      ensures !showMenu && !showReactions
    {
      showMenu, showReactions := false, false;
    }

    /** Reply hands the message to the chat page as the quote, when it gave a setter, and closes the menu. */
    method Reply(msg: Message, hasSetter: bool) returns (quote: Option<Message>)
      modifies this
      ensures quote == (if hasSetter then Some(msg) else None)
      ensures !showMenu && showReactions == old(showReactions)
    {
      quote := if hasSetter then Some(msg) else None;
      showMenu := false;
    }

    /** Copy puts the text, or the empty string, on the clipboard and closes the menu. */
    method Copy(msg: Message) returns (clipboard: string)
      modifies this
      ensures clipboard == OrElse(msg.text, "")
      ensures !showMenu && showReactions == old(showReactions)
    {
      clipboard := OrElse(msg.text, "");
      showMenu := false;
    }

    /** Delete asks the platform to delete the message only after confirmation; the menu closes either way. */
    method Delete(msg: Message, confirmed: bool) returns (deleteId: Option<string>)
      modifies this
      ensures deleteId == (if confirmed then Some(msg.id) else None)
      ensures !showMenu && showReactions == old(showReactions)
    {
      deleteId := None;
      if confirmed {
        deleteId := Some(msg.id);
      }
      showMenu := false;
    }

    /** A picker click sends the toggle request and closes the picker and the menu, whether or not it failed. */
    method ReactionClick(emoji: string, msg: Message) returns (request: ReactionRequest)
      requires emoji in EmojiToType
      modifies this
      ensures request == ReactionToggle(emoji, msg)
      ensures !showMenu && !showReactions
    {
      request := ReactionToggle(emoji, msg);
      showReactions := false;
      showMenu := false;
    }
  }
}

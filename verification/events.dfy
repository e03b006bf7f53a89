/** Events of a comment: which kind of event an action raises, who its
    audience is, the payload sent with it, and the full list of effects
    `generate_event` produces (delayed GenerateEvent tasks and direct mails). */
module Events {
  import opened Values
  import opened Mentions

  datatype EventType = NewComment | CommentLike | CommentReply

  /** `Audience.user(id)` (the id may be nil) and `Audience.users(ids)`. */
  datatype Audience = UserAudience(userId: Option<UserId>) | UsersAudience(userIds: seq<UserId>)

  /** The commented-on entity as the comment sees it: its owner (if any), its
      public projection (`to_public_hash`) and how many comments it has. */
  datatype Commentable = Commentable(owner: Option<User>, projection: Hash, commentCount: int)

  /** What event generation reads of a comment. */
  datatype CommentView = CommentView(
    id: int,
    author: User,
    body: string,
    commentable: Option<Commentable>,
    likeCount: int)

  /** Why building the payload raises: `nil.comments` when there is no
      commentable (evaluated for the argument of `merge`), and a `created_at` that has no `to_i`. */
  datatype Fault = NoCommentable | CreatedAtWithoutToI

  /** The delay of every GenerateEvent task: one minute, in seconds. */
  const EventDelay: int := 60

  /** An outgoing effect. */
  datatype Action =
    | EnqueueEvent(eventType: EventType, audience: Audience, data: Hash, delay: int)
    | NotifyNewComment(owner: Option<string>, author: Option<string>, commentId: int)
    | NotifyReply(recipient: string, author: Option<string>, commentId: int)
    | CommentedHook

  /** `event_type`: a like when a liker is given, a new comment otherwise. */
  function Classify(liker: Option<string>): EventType
  {
    if liker.Some? then CommentLike else NewComment
  }

  /** `commentable.try(:user_id)`. */
  function OwnerId(v: CommentView): Option<UserId>
  {
    if v.commentable.Some? && v.commentable.value.owner.Some? then Some(v.commentable.value.owner.value.id)
    else None
  }

  /** `commentable.try(:user).try(:username)`. */
  function OwnerName(v: CommentView): Option<string>
  {
    if v.commentable.Some? && v.commentable.value.owner.Some? then v.commentable.value.owner.value.username
    else None
  }

  /** `commenting_on_own?`: the author owns what is commented on. */
  predicate CommentingOnOwn(v: CommentView)
  {
    OwnerId(v) == Some(v.author.id)
  }

  /** `event_audience`: the commentable's owner for a new comment, the
      comment's author for any other event type. */
  function EventAudience(v: CommentView, t: EventType): Audience
  {
    match t
    case NewComment => UserAudience(OwnerId(v))
    case _ => UserAudience(Some(v.author.id))
  }

  /** The keys the payload sets on top of the commentable's projection. */
  const PayloadKeys: set<string> := {"comments", "likes", "user", "body", "created_at"}

  /** `to_event_hash`: the projection merged with the counts, the author's
      username and an empty body; `created_at` made an integer; a liker, when
      given, overrides the username and is added under `liker`. */
  function EventHash(v: CommentView, liker: Option<string>): Result<Hash, Fault>
  {
    match v.commentable
    case None => Failure(NoCommentable)
    case Some(c) =>
      var counted := c.projection + map["comments" := Num(c.commentCount), "likes" := Num(v.likeCount)];
      var merged := counted + map["user" := Obj(map["username" := NameValue(v.author.username)]), "body" := Obj(map[])];
      match ToI(Fetch(merged, "created_at"))
      case None => Failure(CreatedAtWithoutToI)
      case Some(t) =>
        var h := merged["created_at" := Num(t)];
        if liker.None? then Success(h)
        else
          var user := h["user"].fields["username" := Str(liker.value)];
          Success(h["user" := Obj(user)]["liker" := Str(liker.value)])
  }

  /** The payload is built unless there is no commentable or the projection's
      `created_at` is a hash. */
  lemma EventHashFails(v: CommentView, liker: Option<string>)
    ensures EventHash(v, liker).Failure? <==>
              v.commentable.None? || Fetch(v.commentable.value.projection, "created_at").Obj?
    ensures v.commentable.None? ==> EventHash(v, liker) == Failure(NoCommentable)
  {
    if v.commentable.Some? {
      var c := v.commentable.value;
      var counted := c.projection + map["comments" := Num(c.commentCount), "likes" := Num(v.likeCount)];
      var merged := counted + map["user" := Obj(map["username" := NameValue(v.author.username)]), "body" := Obj(map[])];
      assert Fetch(merged, "created_at") == Fetch(c.projection, "created_at");
    }
  }

  /** The shape of a built payload. */
  lemma EventHashShape(v: CommentView, liker: Option<string>)
    requires EventHash(v, liker).Success?
    ensures v.commentable.Some?
    ensures var data := EventHash(v, liker).value;
            var p := v.commentable.value.projection;
            && data.Keys == p.Keys + PayloadKeys + (if liker.Some? then {"liker"} else {})
            && data["user"] == Obj(map["username" := if liker.Some? then Str(liker.value) else NameValue(v.author.username)])
            && (liker.Some? ==> data["liker"] == Str(liker.value))
            && data["body"] == Obj(map[])
            && data["created_at"].Num?
            && ToI(Fetch(p, "created_at")) == Some(data["created_at"].n)
            && data["comments"] == Num(v.commentable.value.commentCount)
            && data["likes"] == Num(v.likeCount)
            && (forall k :: k in p && k !in PayloadKeys && k != "liker" ==> data[k] == p[k])
  {
    var data := EventHash(v, liker).value;
    var c := v.commentable.value;
    var counted := c.projection + map["comments" := Num(c.commentCount), "likes" := Num(v.likeCount)];
    var merged := counted + map["user" := Obj(map["username" := NameValue(v.author.username)]), "body" := Obj(map[])];
    assert merged["user"] == Obj(map["username" := NameValue(v.author.username)]);
    assert Fetch(merged, "created_at") == Fetch(c.projection, "created_at");
    if liker.Some? {
      assert map["username" := NameValue(v.author.username)]["username" := Str(liker.value)]
          == map["username" := Str(liker.value)];
    }
  }

  /** The event type and the payload agree: a like event exactly when the
      payload names a liker (for a projection without a `liker` key of its own). */
  lemma EventTypeMatchesPayload(v: CommentView, liker: Option<string>)
    requires EventHash(v, liker).Success?
    requires v.commentable.Some? ==> "liker" !in v.commentable.value.projection
    ensures Classify(liker) == CommentLike <==> "liker" in EventHash(v, liker).value
    ensures Classify(liker) == NewComment <==> "liker" !in EventHash(v, liker).value
  {
    EventHashShape(v, liker);
  }

  /** One `comment_reply` mail per mentioned user, in order. */
  function ReplyNotices(names: seq<string>, author: Option<string>, commentId: int): (acts: seq<Action>)
    ensures |acts| == |names|
    ensures forall k :: 0 <= k < |names| ==> acts[k] == NotifyReply(names[k], author, commentId)
  {
    if names == [] then []
    else ReplyNotices(names[..|names| - 1], author, commentId) + [NotifyReply(names[|names| - 1], author, commentId)]
  }

  /** One more mentioned user, one more mail at the end. */
  lemma ReplyNoticesSnoc(names: seq<string>, i: nat, author: Option<string>, commentId: int)
    requires i < |names|
    ensures ReplyNotices(names[..i + 1], author, commentId)
         == ReplyNotices(names[..i], author, commentId) + [NotifyReply(names[i], author, commentId)]
  {
    assert names[..i + 1][..i] == names[..i];
  }

  /** The owner's `new_comment` mail, unless the author comments on their own. */
  function OwnerNotice(v: CommentView): seq<Action>
  {
    if CommentingOnOwn(v) then [] else [NotifyNewComment(OwnerName(v), v.author.username, v.id)]
  }

  /** One `comment_reply` task covering all mentioned users, then a mail to each. */
  function MentionEffects(v: CommentView, data: Hash, directory: map<string, UserId>): seq<Action>
  {
    var names := MentionedUsers(v.body, directory);
    if names == [] then []
    else [EnqueueEvent(CommentReply, UsersAudience(Ids(names, directory)), data, EventDelay)]
         + ReplyNotices(names, v.author.username, v.id)
  }

  /** The effects of `generate_event` once the payload is built: the event
      itself, and for a new comment the owner's mail and the mention effects. */
  function Effects(v: CommentView, t: EventType, data: Hash, directory: map<string, UserId>): seq<Action>
  {
    [EnqueueEvent(t, EventAudience(v, t), data, EventDelay)]
    + (if t == NewComment then OwnerNotice(v) + MentionEffects(v, data, directory) else [])
  }

  /** Everything `generate_event(liker: ...)` does, in order, or the fault it raises. */
  function Dispatch(v: CommentView, liker: Option<string>, directory: map<string, UserId>): Result<seq<Action>, Fault>
  {
    match EventHash(v, liker)
    case Failure(f) => Failure(f)
    case Success(data) => Success(Effects(v, Classify(liker), data, directory))
  }

  lemma AppendAssoc<T>(a: seq<T>, b: seq<T>, c: seq<T>)
    ensures a + (b + c) == (a + b) + c
  {
  }

  /** How many actions satisfy `p`. */
  function Count(acts: seq<Action>, p: Action -> bool): nat
  {
    if acts == [] then 0 else Count(acts[..|acts| - 1], p) + (if p(acts[|acts| - 1]) then 1 else 0)
  }

  lemma {:induction false} CountAppend(xs: seq<Action>, ys: seq<Action>, p: Action -> bool)
    ensures Count(xs + ys, p) == Count(xs, p) + Count(ys, p)
    decreases |ys|
  {
    if ys != [] {
      assert (xs + ys)[..|xs + ys| - 1] == xs + ys[..|ys| - 1];
      CountAppend(xs, ys[..|ys| - 1], p);
    } else {
      assert xs + ys == xs;
    }
  }

  lemma CountOne(a: Action, p: Action -> bool)
    ensures Count([a], p) == if p(a) then 1 else 0
  {
    assert [a][..0] == [];
  }

  predicate IsEnqueue(a: Action) { a.EnqueueEvent? }
  predicate IsReplyEnqueue(a: Action) { a.EnqueueEvent? && a.eventType == CommentReply }
  predicate IsOwnerNotice(a: Action) { a.NotifyNewComment? }
  predicate IsReplyNotice(a: Action) { a.NotifyReply? }

  /** Reply mails are counted by IsReplyNotice and by nothing else. */
  lemma {:induction false} CountReplyNotices(names: seq<string>, author: Option<string>, commentId: int)
    ensures Count(ReplyNotices(names, author, commentId), IsReplyNotice) == |names|
    ensures Count(ReplyNotices(names, author, commentId), IsEnqueue) == 0
    ensures Count(ReplyNotices(names, author, commentId), IsReplyEnqueue) == 0
    ensures Count(ReplyNotices(names, author, commentId), IsOwnerNotice) == 0
    decreases |names|
  {
    if names != [] {
      var init := names[..|names| - 1];
      var acts := ReplyNotices(names, author, commentId);
      assert acts[..|acts| - 1] == ReplyNotices(init, author, commentId);
      CountReplyNotices(init, author, commentId);
    }
  }

  /** A like only enqueues its `comment_like` event, aimed at the author. */
  lemma DispatchLike(v: CommentView, liker: string, directory: map<string, UserId>)
    requires EventHash(v, Some(liker)).Success?
    ensures Dispatch(v, Some(liker), directory)
         == Success([EnqueueEvent(CommentLike, UserAudience(Some(v.author.id)), EventHash(v, Some(liker)).value, EventDelay)])
  {
    var head := [EnqueueEvent(CommentLike, UserAudience(Some(v.author.id)), EventHash(v, Some(liker)).value, EventDelay)];
    assert head + [] == head;
  }

  /** Counts over the parts a new comment's actions are made of. */
  lemma NewCommentParts(v: CommentView, directory: map<string, UserId>, p: Action -> bool)
    requires EventHash(v, None).Success?
    ensures Dispatch(v, None, directory).Success?
    ensures var data := EventHash(v, None).value;
            var acts := Dispatch(v, None, directory).value;
            && acts == [EnqueueEvent(NewComment, UserAudience(OwnerId(v)), data, EventDelay)]
                       + (OwnerNotice(v) + MentionEffects(v, data, directory))
            && Count(acts, p) == (if p(acts[0]) then 1 else 0)
                                 + Count(OwnerNotice(v), p) + Count(MentionEffects(v, data, directory), p)
  {
    var data := EventHash(v, None).value;
    var head := [EnqueueEvent(NewComment, UserAudience(OwnerId(v)), data, EventDelay)];
    CountAppend(head, OwnerNotice(v) + MentionEffects(v, data, directory), p);
    CountAppend(OwnerNotice(v), MentionEffects(v, data, directory), p);
    CountOne(head[0], p);
  }

  lemma OwnerNoticeCounts(v: CommentView)
    ensures Count(OwnerNotice(v), IsEnqueue) == 0
    ensures Count(OwnerNotice(v), IsReplyEnqueue) == 0
    ensures Count(OwnerNotice(v), IsReplyNotice) == 0
    ensures Count(OwnerNotice(v), IsOwnerNotice) == if CommentingOnOwn(v) then 0 else 1
  {
    if !CommentingOnOwn(v) {
      var a := NotifyNewComment(OwnerName(v), v.author.username, v.id);
      CountOne(a, IsEnqueue);
      CountOne(a, IsReplyEnqueue);
      CountOne(a, IsReplyNotice);
      CountOne(a, IsOwnerNotice);
    }
  }

  lemma MentionEffectsCounts(v: CommentView, data: Hash, directory: map<string, UserId>)
    ensures var n := |MentionedUsers(v.body, directory)|;
            && Count(MentionEffects(v, data, directory), IsEnqueue) == (if n == 0 then 0 else 1)
            && Count(MentionEffects(v, data, directory), IsReplyEnqueue) == (if n == 0 then 0 else 1)
            && Count(MentionEffects(v, data, directory), IsReplyNotice) == n
            && Count(MentionEffects(v, data, directory), IsOwnerNotice) == 0
  {
    var names := MentionedUsers(v.body, directory);
    CountReplyNotices(names, v.author.username, v.id);
    if names != [] {
      var reply := EnqueueEvent(CommentReply, UsersAudience(Ids(names, directory)), data, EventDelay);
      var notices := ReplyNotices(names, v.author.username, v.id);
      CountAppend([reply], notices, IsEnqueue);
      CountAppend([reply], notices, IsReplyEnqueue);
      CountAppend([reply], notices, IsOwnerNotice);
      CountAppend([reply], notices, IsReplyNotice);
      CountOne(reply, IsEnqueue);
      CountOne(reply, IsReplyEnqueue);
      CountOne(reply, IsOwnerNotice);
      CountOne(reply, IsReplyNotice);
    }
  }

  /** A new comment first enqueues its `new_comment` event for the commentable's
      owner; it enqueues one more event, a `comment_reply` for all mentioned
      users together, exactly when some user is mentioned. */
  lemma DispatchNewCommentEvents(v: CommentView, directory: map<string, UserId>)
    requires EventHash(v, None).Success?
    ensures Dispatch(v, None, directory).Success?
    ensures var acts := Dispatch(v, None, directory).value;
            var data := EventHash(v, None).value;
            var names := MentionedUsers(v.body, directory);
            && |acts| > 0
            && acts[0] == EnqueueEvent(NewComment, UserAudience(OwnerId(v)), data, EventDelay)
            && Count(acts, IsEnqueue) == (if names == [] then 1 else 2)
            && Count(acts, IsReplyEnqueue) == (if names == [] then 0 else 1)
            && (forall a :: a in acts && IsReplyEnqueue(a) ==>
                  a == EnqueueEvent(CommentReply, UsersAudience(Ids(names, directory)), data, EventDelay))
  {
    var data := EventHash(v, None).value;
    NewCommentParts(v, directory, IsEnqueue);
    NewCommentParts(v, directory, IsReplyEnqueue);
    OwnerNoticeCounts(v);
    MentionEffectsCounts(v, data, directory);
  }

  /** The owner is mailed about a new comment exactly once, unless the author
      comments on something of their own; then not at all. */
  lemma DispatchOwnerNotice(v: CommentView, directory: map<string, UserId>)
    requires EventHash(v, None).Success?
    ensures Dispatch(v, None, directory).Success?
    ensures var acts := Dispatch(v, None, directory).value;
            && Count(acts, IsOwnerNotice) == (if CommentingOnOwn(v) then 0 else 1)
            && (forall a :: a in acts && IsOwnerNotice(a) ==>
                  a == NotifyNewComment(OwnerName(v), v.author.username, v.id))
  {
    var data := EventHash(v, None).value;
    NewCommentParts(v, directory, IsOwnerNotice);
    OwnerNoticeCounts(v);
    MentionEffectsCounts(v, data, directory);
  }

  /** The reply mails among the mention effects go to exactly the resolved
      mentioned users. */
  lemma MentionEffectsRecipients(v: CommentView, data: Hash, directory: map<string, UserId>)
    ensures forall a :: a in MentionEffects(v, data, directory) && IsReplyNotice(a) ==>
              a.recipient in MentionedUsers(v.body, directory)
    ensures forall u :: u in MentionedUsers(v.body, directory) ==>
              NotifyReply(u, v.author.username, v.id) in MentionEffects(v, data, directory)
  {
    var names := MentionedUsers(v.body, directory);
    var notices := ReplyNotices(names, v.author.username, v.id);
    if names != [] {
      var reply := EnqueueEvent(CommentReply, UsersAudience(Ids(names, directory)), data, EventDelay);
      assert MentionEffects(v, data, directory) == [reply] + notices;
      forall a | a in notices
        ensures a.NotifyReply? && a.recipient in names
      {
        var k :| 0 <= k < |notices| && notices[k] == a;
      }
      forall u | u in names
        ensures NotifyReply(u, v.author.username, v.id) in notices
      {
        var k :| 0 <= k < |names| && names[k] == u;
        assert notices[k] == NotifyReply(u, v.author.username, v.id);
      }
    }
  }

  /** Each mentioned user that the directory knows gets exactly one
      `comment_reply` mail, and nobody else gets one. */
  lemma DispatchReplyNotices(v: CommentView, directory: map<string, UserId>)
    requires EventHash(v, None).Success?
    ensures Dispatch(v, None, directory).Success?
    ensures var acts := Dispatch(v, None, directory).value;
            && Count(acts, IsReplyNotice) == |MentionedUsers(v.body, directory)|
            && (forall a :: a in acts && IsReplyNotice(a) ==>
                  a.recipient in UsernameMentions(v.body) && a.recipient in directory)
            && (forall u :: u in UsernameMentions(v.body) && u in directory ==>
                  NotifyReply(u, v.author.username, v.id) in acts)
  {
    var data := EventHash(v, None).value;
    NewCommentParts(v, directory, IsReplyNotice);
    OwnerNoticeCounts(v);
    MentionEffectsCounts(v, data, directory);
    MentionEffectsRecipients(v, data, directory);
  }

  /** The handle in "nice work @carol" resolves to carol alone. */
  lemma CarolMentioned(directory: map<string, UserId>)
    requires "carol" in directory
    ensures MentionedUsers("nice work @carol", directory) == ["carol"]
  {
    var s := "nice work @carol";
    NoAtSkipped(s, 0, 10);
    assert forall k :: 11 <= k < 16 ==> IsHandleChar(s[k]);
    RunEndAt(s, 11, 16);
    assert s[11..16] == "carol";
    assert MentionAt(s, 10) && HandleAt(s, 10) == "carol";
    assert UsernameMentions(s) == ["carol"];
    var names := MentionedUsers(s, directory);
    assert "carol" in names;
  }

  /** A comment by erin saying "nice work @carol" on something dave owns: the
      `new_comment` event goes to dave, dave is mailed, one `comment_reply`
      event goes to carol, carol is mailed, and erin is sent nothing. */
  lemma NewCommentScenario(data: Hash)
    requires "created_at" in data && data["created_at"].Num?
    ensures var dave := User(4, Some("dave"), 0);
            var erin := User(5, Some("erin"), 0);
            var directory := map["carol" := 3, "dave" := 4, "erin" := 5];
            var v := CommentView(7, erin, "nice work @carol", Some(Commentable(Some(dave), data, 1)), 0);
            var payload := EventHash(v, None);
            && payload.Success?
            && Dispatch(v, None, directory)
               == Success([EnqueueEvent(NewComment, UserAudience(Some(4)), payload.value, EventDelay),
                           NotifyNewComment(Some("dave"), Some("erin"), 7),
                           EnqueueEvent(CommentReply, UsersAudience([3]), payload.value, EventDelay),
                           NotifyReply("carol", Some("erin"), 7)])
  {
    var dave := User(4, Some("dave"), 0);
    var erin := User(5, Some("erin"), 0);
    var directory := map["carol" := 3, "dave" := 4, "erin" := 5];
    var v := CommentView(7, erin, "nice work @carol", Some(Commentable(Some(dave), data, 1)), 0);
    EventHashFails(v, None);
    var payload := EventHash(v, None).value;
    assert Dispatch(v, None, directory) == Success(Effects(v, NewComment, payload, directory));
    assert OwnerNotice(v) == [NotifyNewComment(Some("dave"), Some("erin"), 7)];
    assert MentionEffects(v, payload, directory)
        == [EnqueueEvent(CommentReply, UsersAudience([3]), payload, EventDelay), NotifyReply("carol", Some("erin"), 7)] by {
      CarolMentioned(directory);
      var names := MentionedUsers(v.body, directory);
      assert Ids(names, directory) == [3];
      assert ReplyNotices(names, Some("erin"), 7) == [NotifyReply("carol", Some("erin"), 7)];
    }
    var first := EnqueueEvent(NewComment, UserAudience(Some(4)), payload, EventDelay);
    assert Effects(v, NewComment, payload, directory) == [first] + (OwnerNotice(v) + MentionEffects(v, payload, directory));
    var owner := NotifyNewComment(Some("dave"), Some("erin"), 7);
    var reply := EnqueueEvent(CommentReply, UsersAudience([3]), payload, EventDelay);
    var mail := NotifyReply("carol", Some("erin"), 7);
    assert [first] + ([owner] + [reply, mail]) == [first, owner, reply, mail];
  }
}

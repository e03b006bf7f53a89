/** The comment record and the operations that change it: the like counter
    cache, liking, and the events raised when a comment is created or liked. */
module Comments {
  import opened Values
  import opened LikeCounters
  import opened Mentions
  import opened Events

  /** The outgoing effects, appended in the order they are issued: GenerateEvent
      tasks, mails, and calls of the commentable's `commented` hook. */
  class Outbox {
    var log: seq<Action>

    constructor ()
      ensures log == []
    {
      log := [];
    }

    method Push(a: Action)
      modifies this
      ensures log == old(log) + [a]
    {
      log := log + [a];
    }
  }

  class Comment {
    const id: int
    const author: User
    const body: string
    const commentable: Option<Commentable>
    var likes: seq<Like>
    var likesCache: int
    var likesValueCache: int

    /** A saved comment; the body validation asks for at least two characters. */
    constructor (id: int, author: User, body: string, commentable: Option<Commentable>)
      requires |body| >= 2
      ensures this.id == id && this.author == author && this.body == body && this.commentable == commentable
      ensures likes == [] && Counter() == LikeCounter(0, 0)
      ensures Consistent() && OneLikePerUser() && NoSelfLike()
    {
      this.id := id;
      this.author := author;
      this.body := body;
      this.commentable := commentable;
      likes := [];
      likesCache := 0;
      likesValueCache := 0;
    }

    /** The two cached columns. */
    function Counter(): LikeCounter
      reads this
    {
      LikeCounter(likesCache, likesValueCache)
    }

    /** The cache agrees with the like rows. */
    predicate Consistent()
      reads this
    {
      Tallies(Counter(), likes)
    }

    /** At most one like per user. */
    predicate OneLikePerUser()
      reads this
    {
      forall i, j :: 0 <= i < j < |likes| ==> likes[i].userId != likes[j].userId
    }

    /** The author has not liked their own comment. */
    predicate NoSelfLike()
      reads this
    {
      forall i :: 0 <= i < |likes| ==> likes[i].userId != author.id
    }

    /** What event generation reads of this comment. */
    function View(): CommentView
      reads this
    {
      CommentView(id, author, body, commentable, |likes|)
    }

    /** The `commented` hook call that follows every save, when there is a
        commentable to call it on. */
    function SaveHooks(): seq<Action>
      reads this
    {
      if commentable.Some? then [CommentedHook] else []
    }

    /** `liked_by?(user)`. */
    predicate LikedBy(u: User)
      reads this
    {
      exists i :: 0 <= i < |likes| && likes[i].userId == u.id
    }

    /** `authored_by?(user)`. */
    predicate AuthoredBy(u: User)
    {
      author.id == u.id
    }

    /** `commented_callback`: `commentable.try(:commented)`. */
    method CommentedCallback(out: Outbox)
      modifies out
      ensures out.log == old(out.log) + SaveHooks()
    {
      if commentable.Some? {
        out.Push(CommentedHook);
      }
    }

    /** `increment_likes_cache(value)`: one more like worth `value`, then a save
        (which runs the after-save hook). */
    method IncrementLikesCache(value: int, out: Outbox)
      modifies this`likesCache, this`likesValueCache, out
      ensures Counter() == old(Counter()).Bumped(value)
      ensures out.log == old(out.log) + SaveHooks()
    {
      likesCache := likesCache + 1;
      likesValueCache := likesValueCache + value;
      CommentedCallback(out);
    }

    /** `decrement_likes_cache(value)`: one like worth `value` fewer, then a save. */
    method DecrementLikesCache(value: int, out: Outbox)
      modifies this`likesCache, this`likesValueCache, out
      ensures Counter() == old(Counter()).Dropped(value)
      ensures out.log == old(out.log) + SaveHooks()
    {
      likesCache := likesCache - 1;
      likesValueCache := likesValueCache - value;
      CommentedCallback(out);
    }

    /** `update_likes_cache(like)`: the after-add and after-remove callback of
        the likes association. */
    method UpdateLikesCache(like: Like, destroyed: bool, out: Outbox)
      modifies this`likesCache, this`likesValueCache, out
      ensures Counter() == Apply(old(Counter()), if destroyed then Removed(like.value) else Added(like.value))
      ensures out.log == old(out.log) + SaveHooks()
    {
      if destroyed {
        DecrementLikesCache(like.value, out);
      } else {
        IncrementLikesCache(like.value, out);
      }
    }

    /** A like row is created on this comment (`likes.create!`), which runs the
        after-add callback. */
    method AddLike(like: Like, out: Outbox)
      modifies this, out
      ensures likes == old(likes) + [like]
      ensures Counter() == Apply(old(Counter()), Added(like.value))
      ensures out.log == old(out.log) + SaveHooks()
      ensures old(Consistent()) ==> Consistent()
    {
      ghost var before := Counter();
      likes := likes + [like];
      UpdateLikesCache(like, false, out);
      if Tallies(before, old(likes)) {
        TalliesAfterAdd(before, old(likes), like);
      }
    }

    /** The like row at `k` is destroyed, which runs the after-remove callback. */
    method RemoveLike(k: nat, out: Outbox)
      requires k < |likes|
      modifies this, out
      ensures likes == Without(old(likes), k)
      ensures Counter() == Apply(old(Counter()), Removed(old(likes)[k].value))
      ensures out.log == old(out.log) + SaveHooks()
      ensures old(Consistent()) ==> Consistent()
    {
      ghost var before := Counter();
      var like := likes[k];
      likes := Without(likes, k);
      UpdateLikesCache(like, true, out);
      if Tallies(before, old(likes)) {
        TalliesAfterRemove(before, old(likes), k);
      }
    }

    /** `liked(how_much)`: nothing for nil; otherwise one increment and one more
        call of the commentable's hook. */
    method Liked(howMuch: Option<int>, out: Outbox)
      modifies this`likesCache, this`likesValueCache, out
      ensures howMuch.None? ==> Counter() == old(Counter()) && out.log == old(out.log)
      ensures howMuch.Some? ==> Counter() == old(Counter()).Bumped(howMuch.value)
                                && out.log == old(out.log) + SaveHooks() + SaveHooks()
    {
      if howMuch.Some? {
        IncrementLikesCache(howMuch.value, out);
        CommentedCallback(out);
      }
    }

    /** `to_event_hash(options)`, built step by step as the source does. */
    method ToEventHash(liker: Option<string>) returns (r: Result<Hash, Fault>)
      ensures r == EventHash(View(), liker)
    {
      if commentable.None? {
        return Failure(NoCommentable);
      }
      var c := commentable.value;
      var h := c.projection + map["comments" := Num(c.commentCount), "likes" := Num(|likes|)];
      h := h + map["user" := Obj(map["username" := NameValue(author.username)]), "body" := Obj(map[])];
      var createdAt := ToI(Fetch(h, "created_at"));
      if createdAt.None? {
        return Failure(CreatedAtWithoutToI);
      }
      h := h["created_at" := Num(createdAt.value)];
      if liker.Some? {
        h := h["user" := Obj(h["user"].fields["username" := Str(liker.value)])];
        h := h["liker" := Str(liker.value)];
      }
      return Success(h);
    }

    /** The mention part of `generate_event`: when some directory user is
        mentioned, one `comment_reply` event for all of them, then a
        `comment_reply` mail to each (the loop over `mentioned_users`). */
    method NotifyMentioned(data: Hash, directory: map<string, UserId>, out: Outbox)
      modifies out
      ensures out.log == old(out.log) + MentionEffects(View(), data, directory)
    {
      var names := MentionedUsers(body, directory);
      if names != [] {
        var reply := EnqueueEvent(CommentReply, UsersAudience(Ids(names, directory)), data, EventDelay);
        out.Push(reply);
        ghost var start := out.log;
        var i := 0;
        while i < |names|
          invariant 0 <= i <= |names|
          invariant out.log == start + ReplyNotices(names[..i], author.username, id)
        {
          ReplyNoticesSnoc(names, i, author.username, id);
          AppendAssoc(start, ReplyNotices(names[..i], author.username, id), [NotifyReply(names[i], author.username, id)]);
          out.Push(NotifyReply(names[i], author.username, id));
          i := i + 1;
        }
        assert names[..|names|] == names;
        AppendAssoc(old(out.log), [reply], ReplyNotices(names, author.username, id));
      }
    }

    /** The owner's `new_comment` mail of `generate_event`, skipped on a
        comment on one's own commentable. */
    method NotifyOwner(out: Outbox)
      modifies out
      ensures out.log == old(out.log) + OwnerNotice(View())
    {
      if !CommentingOnOwn(View()) {
        out.Push(NotifyNewComment(OwnerName(View()), author.username, id));
      }
    }

    /** The effects `generate_event` issues once the payload is built. */
    method Emit(eventType: EventType, data: Hash, directory: map<string, UserId>, out: Outbox)
      modifies out
      ensures out.log == old(out.log) + Effects(View(), eventType, data, directory)
    {
      ghost var start := out.log;
      var first := EnqueueEvent(eventType, EventAudience(View(), eventType), data, EventDelay);
      out.Push(first);
      if eventType == NewComment {
        NotifyOwner(out);
        NotifyMentioned(data, directory, out);
        AppendAssoc(start + [first], OwnerNotice(View()), MentionEffects(View(), data, directory));
        AppendAssoc(start, [first], OwnerNotice(View()) + MentionEffects(View(), data, directory));
      } else {
        assert [first] + [] == [first];
      }
    }

    /** `generate_event(options)`: build the payload, then enqueue the event,
        and for a new comment mail the owner (unless it is their own comment)
        and every mentioned user, with one more event for the mentioned users
        together. */
    method GenerateEvent(liker: Option<string>, directory: map<string, UserId>, out: Outbox)
      returns (fault: Option<Fault>)
      modifies out
      ensures match Dispatch(View(), liker, directory)
              case Success(acts) => fault == None && out.log == old(out.log) + acts
              case Failure(f) => fault == Some(f) && out.log == old(out.log)
    {
      var eventType := Classify(liker);
      var data := ToEventHash(liker);
      if data.Failure? {
        return Some(data.error);
      }
      Emit(eventType, data.value, directory, out);
      return None;
    }

    /** After a comment is created: `generate_event`, then the after-save hook
        (skipped when event generation raised). */
    method AfterCreate(directory: map<string, UserId>, out: Outbox) returns (fault: Option<Fault>)
      modifies out
      ensures match Dispatch(View(), None, directory)
              case Success(acts) => fault == None && out.log == old(out.log) + acts + SaveHooks()
              case Failure(f) => fault == Some(f) && out.log == old(out.log)
    {
      fault := GenerateEvent(None, directory, out);
      if fault.None? {
        CommentedCallback(out);
      }
    }

    /** `like_by(user)`: unless the user already likes the comment or wrote it,
        add their like worth their score and raise the event for their username
        as liker: `comment_like`, or `new_comment` when the username is nil. */
    method LikeBy(u: User, directory: map<string, UserId>, out: Outbox) returns (fault: Option<Fault>)
      modifies this, out
      ensures old(LikedBy(u)) || AuthoredBy(u) ==>
                likes == old(likes) && Counter() == old(Counter()) && out.log == old(out.log) && fault == None
      ensures !old(LikedBy(u)) && !AuthoredBy(u) ==>
                && likes == old(likes) + [Like(u.id, u.score)]
                && Counter() == old(Counter()).Bumped(u.score)
                && match Dispatch(View(), u.username, directory)
                   case Success(acts) => fault == None && out.log == old(out.log) + SaveHooks() + acts
                   case Failure(f) => fault == Some(f) && out.log == old(out.log) + SaveHooks()
      ensures !AuthoredBy(u) ==> LikedBy(u)
      ensures old(Consistent()) ==> Consistent()
      ensures old(OneLikePerUser()) ==> OneLikePerUser()
      ensures old(NoSelfLike()) ==> NoSelfLike()
    {
      if LikedBy(u) || u.id == author.id {
        return None;
      }
      AddLike(Like(u.id, u.score), out);
      assert likes[|likes| - 1].userId == u.id;
      fault := GenerateEvent(u.username, directory, out);
    }
  }
}

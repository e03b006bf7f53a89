# Comments on coderwall: like counter, mentions and events

A Dafny model of the comment record of coderwall (`app/models/comment.rb`),
covering four pieces of logic:

- **The like counter cache.** Each comment carries two cached columns,
  `likes_cache` and `likes_value_cache`. Adding or destroying a like row moves
  them one like at a time. `like_by` adds a like unless the user already likes
  the comment or wrote it. `liked` bumps the cache directly.
- **Mention extraction.** `username_mentions` scans the body with
  `@([a-z0-9_]+)`. `mentioned?` tests membership in that list. `mentions`
  resolves the handles against the user directory.
- **Event composition.** `event_type` picks `comment_like` or `new_comment`.
  `to_event_hash` builds the payload from the commentable's public
  projection. `event_audience` names who the event is for.
- **The dispatch plan of `generate_event`.** It decides which delayed
  `GenerateEvent` tasks are enqueued and which mails are sent.

The model is split into five modules:

- `Values` (values.dfy): optional values and failures, users, like rows, and
  the loosely typed hash values of a payload, with Ruby's `to_i` on them.
- `LikeCounters` (like_counter.dfy): the two cached columns as a value, the
  replay of like additions and removals, and the invariant tying the cache to
  the like rows.
- `Mentions` (mentions.dfy): the scanner, an independent reference definition
  it is proved equal to, and resolution against the directory.
- `Events` (events.dfy): event type, audience, payload and the full list of
  effects of `generate_event` as functions, with lemmas about them.
- `Comments` (comment.dfy): a `Comment` class whose methods update the like
  rows and the cached columns in place. Outgoing effects go to an `Outbox`
  class, whose log is an append-only sequence of actions:
  - an enqueued `GenerateEvent` task;
  - a `new_comment` or `comment_reply` mail;
  - a call of the commentable's `commented` hook.

The methods build the payload and issue the effects step by step, as the Ruby
does. Their contracts tie each result to the functions of `Events`.

Rails runs the `after_save :commented_callback` hook on every save, including
`save(validate: false)`. So each cache increment or decrement appends a
`commented` call to the log when there is a commentable.

The payload can raise in two ways, and the model returns a `Fault` for each:

- with no commentable, `self.commentable.comments` raises on nil while the
  argument of `merge` is evaluated;
- with a `created_at` that has no `to_i` (a hash), the conversion raises.

When the payload raises, `generate_event` issues nothing.

Three behaviours of the code are worth noting:

- The payload's `created_at` is the one in the commentable's projection,
  converted with `to_i`, not the comment's own timestamp.
- When the commentable has no owner, the owner mail is still sent, to a nil
  username. No owner id equals the author's id, so `commenting_on_own?` is
  false there.
- `like_by` passes the user's username as the liker. A user whose username is
  nil therefore raises a full `new_comment` dispatch, owner mail and mention
  effects included, because `event_type` tests the liker's truthiness.

## Model

| member | source | states |
|---|---|---|
| LikeCounters.Apply | app/models/comment.rb:59-61 | a destroyed like's change decrements the counter by its value, any other increments it |
| LikeCounters.DroppedUndoesBumped | app/models/comment.rb:116-126 | a decrement by `v` exactly undoes an increment by `v`, and the other way round |
| LikeCounters.ReplayTotals | app/models/comment.rb:59-61 | after any sequence of like adds and removes routed through `update_likes_cache`, the count moved by adds minus removes and the value sum by added values minus removed values |
| LikeCounters.ReplayOrderFree | app/models/comment.rb:59-61 | the final cache does not depend on the order in which two batches of like changes are applied |
| LikeCounters.ValueSumWithout | app/models/comment.rb:36 | destroying the like at `k` lowers the sum of like values by exactly that like's value |
| LikeCounters.TalliesAfterAdd | app/models/comment.rb:36 | adding a like row and incrementing by its value keeps the cache equal to the count and value sum of the rows |
| LikeCounters.TalliesAfterRemove | app/models/comment.rb:36 | destroying a like row and decrementing by its value keeps the cache equal to the count and value sum of the rows |
| Comments.Comment.constructor | app/models/comment.rb:47 | a new comment (body of at least two characters) has no likes and a zero cache, so it is consistent, has no duplicate and no self like |
| Comments.Comment.LikedBy | app/models/comment.rb:77-79 | the user likes the comment when some like row carries their id |
| Comments.Comment.AuthoredBy | app/models/comment.rb:81-83 | the user wrote the comment when the author's id is theirs |
| Comments.Comment.CommentedCallback | app/models/comment.rb:55-57 | appends one `commented` hook call when there is a commentable, nothing otherwise |
| Comments.Comment.IncrementLikesCache | app/models/comment.rb:122-126 | `likes_cache` rises by 1 and `likes_value_cache` by `v`; nothing else of the comment changes; the save runs the `commented` hook |
| Comments.Comment.DecrementLikesCache | app/models/comment.rb:116-120 | `likes_cache` drops by 1 and `likes_value_cache` by `v`; nothing else of the comment changes; the save runs the `commented` hook |
| Comments.Comment.UpdateLikesCache | app/models/comment.rb:59-61 | a destroyed like decrements by its value and any other like increments by it |
| Comments.Comment.AddLike | app/models/comment.rb:36 | the like row is appended, the after-add callback increments by its value, and a consistent cache stays consistent |
| Comments.Comment.RemoveLike | app/models/comment.rb:36 | the like row is removed, the after-remove callback decrements by its value, and a consistent cache stays consistent |
| Comments.Comment.Liked | app/models/comment.rb:70-75 | `liked(nil)` changes nothing and issues nothing; `liked(v)` increments by `v` once and runs the `commented` hook twice (once from the save, once directly) |
| Comments.Comment.LikeBy | app/models/comment.rb:63-68 | a user who already likes the comment, or wrote it, changes nothing and triggers no event; anyone else adds exactly one like worth their score, the cache is bumped by that score, the user now likes the comment, and exactly the dispatch for their username as liker follows (`comment_like`, or `new_comment` for a nil username); consistency, one like per user and no self like are preserved |
| Comments.Comment.ToEventHash | app/models/comment.rb:146-155 | the payload built step by step by merges and key updates is the payload `EventHash` describes, including its faults |
| Comments.Comment.NotifyMentioned | app/models/comment.rb:136-142 | when some directory user is mentioned, one `comment_reply` task for all their ids, then one mail per user in order; nothing otherwise |
| Comments.Comment.NotifyOwner | app/models/comment.rb:134 | the owner's `new_comment` mail is sent unless the author comments on their own commentable |
| Comments.Comment.Emit | app/models/comment.rb:131-143 | issues the event for its audience with a 60-second delay, then for a new comment the owner mail and the mention effects, in that order |
| Comments.Comment.GenerateEvent | app/models/comment.rb:128-144 | issues exactly the actions `Dispatch` plans, or nothing and the fault when the payload raises |
| Comments.Comment.AfterCreate | app/models/comment.rb:37-38 | creation runs the `new_comment` dispatch and then the `commented` hook, or stops at the fault |
| Mentions.UsernameMentions | app/models/comment.rb:93-95 | the handles the scan finds from the start of the body, in body order, repeats kept |
| Mentions.Mentioned | app/models/comment.rb:97-99 | the name is one of the body's scanned handles |
| Mentions.MentionedUsers | app/models/comment.rb:89-91 | the body's handles resolved against the directory, each known user once |
| Mentions.RunEnd | app/models/comment.rb:94 | the run of handle characters from `j` is maximal: every character up to its end is one, the character at its end is not |
| Mentions.Scan | app/models/comment.rb:93-95 | every handle found is non-empty and made only of `[a-z0-9_]` |
| Mentions.ScanFindsEveryMention | app/models/comment.rb:93-95 | resuming after each match yields, in body order, the maximal handle after every `@` that is followed by a handle character |
| Mentions.EveryMentionHas | app/models/comment.rb:93-95 | a handle is in the reference list exactly when some `@` at or after the start position is followed by exactly that maximal run |
| Mentions.MentionedIff | app/models/comment.rb:97-99 | `mentioned?(u)` holds exactly when some `@` in the body is followed by the maximal run `u` |
| Mentions.UpperCaseHandleIgnored | app/models/comment.rb:94 | `"hello @alice and @BOB"` yields exactly `["alice"]` |
| Mentions.Resolve | app/models/comment.rb:89-91 | the resolved users are exactly the handles the directory knows, each once |
| Events.Classify | app/models/comment.rb:168-174 | `comment_like` when a liker is given, `new_comment` otherwise |
| Events.EventAudience | app/models/comment.rb:157-166 | the commentable owner's id (nil without one) for `new_comment`, the author's id for any other event type |
| Events.CommentingOnOwn | app/models/comment.rb:110-112 | the commentable's owner id equals the author's id; false without a commentable or owner |
| Events.EventHash | app/models/comment.rb:146-155 | the payload: the projection merged with the counts, the author's username and an empty body, `created_at` through `to_i`, the liker overriding the username and added under `liker`; or the fault raised on the way |
| Events.Dispatch | app/models/comment.rb:128-144 | the actions of `generate_event`: the event for its audience, and for a new comment the owner mail and the mention effects; or the payload's fault |
| Events.EventHashFails | app/models/comment.rb:146-148 | the payload fails exactly when there is no commentable or the projection's `created_at` is a hash |
| Events.EventHashShape | app/models/comment.rb:146-155 | a payload holds the projection keys plus comments, likes, user, body and created_at (and liker when given); user.username is the liker or else the author's (nil when the author has none); body is empty; created_at is the integer `to_i` gives for the projection's created_at; the counts are the commentable's and the comment's; other projection keys are kept |
| Events.EventTypeMatchesPayload | app/models/comment.rb:168-174 | the event is `comment_like` exactly when the payload has a `liker` key, `new_comment` exactly when it has none (for a projection without its own `liker` key) |
| Events.ReplyNotices | app/models/comment.rb:139-141 | one `comment_reply` mail per mentioned user, the k-th to the k-th user |
| Events.DispatchLike | app/models/comment.rb:128-131 | a like enqueues exactly one `comment_like` task, for the comment's author, with a one-minute delay, and nothing else |
| Events.DispatchNewCommentEvents | app/models/comment.rb:128-137 | a new comment first enqueues `new_comment` for the commentable's owner; one more task, a `comment_reply` for all mentioned ids, is enqueued exactly when a user is mentioned |
| Events.DispatchOwnerNotice | app/models/comment.rb:128-134 | the owner mail is sent once, unless the author comments on their own commentable, then never |
| Events.MentionEffectsRecipients | app/models/comment.rb:136-141 | reply mails go to exactly the resolved mentioned users |
| Events.DispatchReplyNotices | app/models/comment.rb:136-141 | exactly one reply mail per mentioned directory user, and none to anyone else |
| Events.CarolMentioned | app/models/comment.rb:89-95 | `"nice work @carol"` resolves to carol alone when the directory knows her |
| Events.NewCommentScenario | app/models/comment.rb:128-144 | erin's "nice work @carol" on dave's item enqueues `new_comment` for dave, mails dave, enqueues `comment_reply` for carol's id, mails carol, in that order |

## Left out

- `app/jobs/award_user.rb` is not part of this model. It only calls user lookups and achievement checks that are not visible.
- Persistence and its machinery are not modelled: associations, `default_scope` ordering and the `latest_comments_as_strings` query. The body-length validation appears only as the constructor's precondition.
- Resque enqueueing and `Notifier` mail delivery are entries in an action log. The one-minute delay is a number, not time.
- Concurrent likes and unlikes are not modelled; the model is sequential.
- `User.where` is a map from username to id. `to_public_hash` is an opaque projection map, and `commented` is a log entry.
- Comments.Comment.LikeBy: the model does not re-read the database for `liked_by?`. It reads the comment's own like rows.
- Mentions.Resolve: the database returns matching users in no fixed order. The model uses the order in which handles first occur.
- Values.ToI: `String#to_i` skipping leading whitespace and underscores between digits is not modelled. Timestamps are already integers.
- Integer columns are unbounded; database integer overflow is not modelled.
- A comment without an author user (`user && ...` giving nil) is not modelled; every comment has an author, whose username may be nil.
- Comments.Comment.Liked: it bumps the cache without adding a like row, so it does not preserve the cache-to-rows invariant. Its contract states only the cache change and the hook calls.

/**
 * What the post card's handlers promise, stated over the step functions of
 * module PostCard and, where a property spans several handlers, over their
 * composition. `Added(s, t)` is the part of the effect log a step appended.
 */
module PostCardProperties {
  import Types
  import Actions
  import LikeDisplay
  import opened PostCard

  /** The effects appended between two states of the append-only log. */
  function Added(s: CardState, t: CardState): seq<Effect>
    requires s.log <= t.log
  {
    t.log[|s.log|..]
  }

  /** One click on a heart, with what the session and the gateway would answer. */
  datatype Trigger = Trigger(kind: LikeType, loggedIn: bool, outcome: Outcome)

  /** A burst of like / unlike clicks, handled one after the other. */
  function LikeRun(s: CardState, triggers: seq<Trigger>): CardState
    decreases |triggers|
  {
    if triggers == [] then s
    else LikeRun(LikeStep(s, triggers[0].kind, triggers[0].loggedIn, triggers[0].outcome), triggers[1..])
  }

  /**
   * While a transition is pending, any burst of like and unlike clicks is
   * ignored: no gateway call, no toast, no state change.
   */
  lemma {:induction false} PendingClicksAreIgnored(s: CardState, triggers: seq<Trigger>)
    requires s.isPending
    ensures LikeRun(s, triggers) == s
  {
    if triggers != [] {
      var t := triggers[0];
      assert LikeStep(s, t.kind, t.loggedIn, t.outcome) == s;
      PendingClicksAreIgnored(s, triggers[1..]);
    }
  }

  /** Without a user the only effect is the login notice: no call, no state change. */
  lemma LoggedOutLikeOnlyAsksToLogin(s: CardState, kind: LikeType, outcome: Outcome)
    requires !s.isPending
    ensures var t := LikeStep(s, kind, false, outcome);
            Added(s, t) == [Toast(ErrorToast, LoginRequired)]
            && t.(log := s.log) == s
  {
  }

  /**
   * A like or unlike issues exactly one gateway call, addressed to the card's
   * post, and it is the first thing appended.
   */
  lemma OneCallPerClick(s: CardState, kind: LikeType, outcome: Outcome)
    requires !s.isPending
    ensures var added := Added(s, LikeStep(s, kind, true, outcome));
            |added| >= 1 && added[0] == Call(EndpointOf(kind), s.post.id)
            && forall i :: 1 <= i < |added| ==> !added[i].Call?
  {
  }

  /**
   * Session-expiry routing for like and unlike: "unauthorized" and "TOKEN ERROR"
   * produce the session notice and exactly one sign-out, and the verbatim error
   * toast is not shown; any other non-empty code is shown verbatim, with no
   * sign-out.
   */
  lemma LikeErrorRouting(s: CardState, kind: LikeType, code: string)
    requires !s.isPending && code != ""
    ensures var added := Added(s, LikeStep(s, kind, true, AppError(code)));
            (IsSessionExpiredCode(code) ==>
               Count(SignOut, added) == 1 && Toast(ErrorToast, SessionExpired) in added
               && Toast(ErrorToast, code) !in added)
            && (!IsSessionExpiredCode(code) ==>
               Count(SignOut, added) == 0 && Toast(ErrorToast, code) in added)
            && added == [Call(EndpointOf(kind), s.post.id)] + ErrorEffects(code)
  {
  }

  /** The same routing for delete, which in no error case reloads or navigates. */
  lemma DeleteErrorRouting(s: CardState, code: string)
    requires code != ""
    ensures var added := Added(s, DeleteStep(s, AppError(code)));
            (IsSessionExpiredCode(code) ==>
               Count(SignOut, added) == 1 && Toast(ErrorToast, SessionExpired) in added
               && Toast(ErrorToast, code) !in added)
            && (!IsSessionExpiredCode(code) ==>
               Count(SignOut, added) == 0 && Toast(ErrorToast, code) in added)
            && Reload !in added && Navigate(FeedRoot) !in added
            && Toast(SuccessToast, PostDeleted) !in added
  {
  }

  /**
   * A failed like leaves the flag false and a failed unlike leaves it true. When
   * the card offers "like" only while the post is not liked (and "unlike" only
   * while it is), that is the value the flag had before the click.
   */
  lemma FailureRestoresFlag(s: CardState, kind: LikeType, outcome: Outcome)
    requires !s.isPending && Fails(outcome)
    ensures LikeStep(s, kind, true, outcome).isLiked == (kind == Unlike)
    ensures s.isLiked == (kind == Unlike) ==> LikeStep(s, kind, true, outcome).isLiked == s.isLiked
  {
  }

  /** A response with neither a truthy `error` nor `success` changes nothing but the call record. */
  lemma InconclusiveResponseChangesNothing(s: CardState, kind: LikeType, outcome: Outcome)
    requires !s.isPending && (outcome.Neither? || outcome == AppError(""))
    ensures LikeStep(s, kind, true, outcome) == s.(log := s.log + [Call(EndpointOf(kind), s.post.id)])
  {
  }

  /**
   * A successful like (unlike) confirms the flag as true (false) and appends
   * exactly the call, one refetch of this post and the "Post liked" ("Post
   * unliked") toast, in that order: no sign-out, reload or navigation.
   */
  lemma {:induction false} SuccessConfirms(s: CardState, kind: LikeType)
    requires !s.isPending
    ensures var t := LikeStep(s, kind, true, Success);
            t.isLiked == (kind == Like)
            && Added(s, t) == [Call(EndpointOf(kind), s.post.id), Refetch(s.post.id),
                               Toast(SuccessToast, if kind == Like then PostLiked else PostUnliked)]
            && Count(Refetch(s.post.id), Added(s, t)) == 1
            && Count(SignOut, Added(s, t)) == 0
  {
    var t := LikeStep(s, kind, true, Success);
    var call := [Call(EndpointOf(kind), s.post.id)];
    var effects := LikeReaction(kind, s.post.id, Success).effects;
    assert Added(s, t) == call + effects;
    CountAppend(Refetch(s.post.id), call, effects);
    CountAbsent(Refetch(s.post.id), call);
    CountAbsent(SignOut, Added(s, t));
  }

  /**
   * Liking never touches the post snapshot, so the like summary shown after a
   * click is the one of the last snapshot, not a locally incremented count.
   */
  lemma LikeNeverFabricatesLikes(s: CardState, kind: LikeType, loggedIn: bool, outcome: Outcome)
    ensures Summary(LikeStep(s, kind, loggedIn, outcome)) == Summary(s)
  {
  }

  /**
   * Reconciliation replaces rather than merges: a successful like followed by
   * the refetch of `getPostById` that delivers post `p` leaves exactly `p`'s likes
   * on display, with the flag confirmed.
   */
  lemma ReconciliationReplaces(s: CardState, kind: LikeType, user: Actions.User, p: Types.Post)
    requires !s.isPending && s.post.id != ""
    ensures var liked := LikeStep(s, kind, true, Success);
            var fetched := Actions.GetPostById(s.post.id, Types.Some(user), Actions.Delivered(Types.Some(p)));
            var t := RefetchStep(liked, fetched.result);
            t.post == p && t.isLiked == (kind == Like) && Summary(t) == LikeDisplay.LikeSummary(p.likes)
  {
  }

  /**
   * A refetch whose request fails, whatever `getPostById` then reports, never
   * reverts the confirmed flag and leaves the snapshot as it was.
   */
  lemma FailedRefetchKeepsFlag(s: CardState, kind: LikeType, id: string, session: Types.Option<Actions.User>, failure: Actions.Failure)
    requires !s.isPending
    ensures var liked := LikeStep(s, kind, true, Success);
            var fetched := Actions.GetPostById(id, session, Actions.Failed(failure));
            var t := RefetchStep(liked, fetched.result);
            t.isLiked == (kind == Like) && t.post == s.post
  {
  }

  /** A refetch for an empty id settles with `null`, which changes nothing. */
  lemma EmptyIdRefetchChangesNothing(s: CardState, session: Types.Option<Actions.User>, transport: Actions.Transport)
    ensures RefetchStep(s, Actions.GetPostById("", session, transport).result) == s
  {
  }

  /**
   * A delete without a truthy error — success, an empty response, or none at
   * all — toasts "Post deleted", then reloads, then navigates to "/", in that
   * order; a rejected delete shows nothing after its call.
   */
  lemma DeleteOrder(s: CardState, outcome: Outcome)
    ensures var added := Added(s, DeleteStep(s, outcome));
            (!HasError(outcome) && !outcome.Rejected? ==>
               added == [Call(DeleteEndpoint, s.post.id), Toast(SuccessToast, PostDeleted), Reload, Navigate(FeedRoot)])
            && (outcome.Rejected? ==> added == [Call(DeleteEndpoint, s.post.id)])
  {
  }

  /** Toggling the comments twice restores the card. */
  lemma ToggleTwiceRestores(s: CardState)
    ensures ToggleStep(ToggleStep(s)) == s
  {
  }

  /**
   * The scenario of a card for a post without likes: a logged-out click only
   * asks to log in; after logging in, a successful like and the refetch that
   * returns the post with the user's like show "Liked by" that user.
   */
  lemma FirstLikeScenario(post: Types.Post, user: Actions.User, name: string)
    requires post.id != "" && post.likes == []
    ensures var s0 := Mount(post, false, false);
            var s1 := LikeStep(s0, Like, false, Success);
            var s2 := LikeStep(s1, Like, true, Success);
            var liked := post.(likes := [Types.Like(Types.Author(name))]);
            var s3 := RefetchStep(s2, Actions.GetPostById(post.id, Types.Some(user), Actions.Delivered(Types.Some(liked))).result);
            Summary(s1) == LikeDisplay.FirstToLike
            && s1.log == [Toast(ErrorToast, LoginRequired)]
            && s3.isLiked && Summary(s3) == "Liked by " + name
  {
  }

  /**
   * The same scenario driven through a `Controller`: only the handlers'
   * contracts are used to follow the card's fields.
   */
  method FirstLikeOnController(post: Types.Post, user: Actions.User, name: string)
    requires post.id != "" && post.likes == []
  {
    var card := new Controller(post, false, false);
    card.SetPending(true);
    card.HandleLike(Like, true, Success);
    assert card.log == [] && !card.isLiked;
    card.SetPending(false);
    card.HandleLike(Like, false, Success);
    assert card.log == [Toast(ErrorToast, LoginRequired)] && !card.isLiked;
    card.HandleLike(Like, true, Success);
    assert card.isLiked && card.currPost == post;
    var liked := post.(likes := [Types.Like(Types.Author(name))]);
    var fetched := Actions.GetPostById(card.currPost.id, Types.Some(user), Actions.Delivered(Types.Some(liked)));
    card.ApplyRefetch(fetched.result);
    assert card.isLiked && LikeDisplay.LikeSummary(card.currPost.likes) == "Liked by " + name;
    card.ToggleComments();
    card.ToggleComments();
    assert !card.showComments;
  }
}

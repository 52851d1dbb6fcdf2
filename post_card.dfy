/**
 * The per-post interaction controller of the post card: the like / unlike
 * handler, the delete handler, the refetch callback and the comments toggle.
 *
 * Each gateway call is resolved by an abstract `Outcome` given to the handler,
 * and every foreign side effect (toast, sign-out, refetch, reload, navigation,
 * the gateway call itself) is appended to an effect log. The pure step
 * functions below say what one handler does to the card's state; the class
 * `Controller` holds that state in mutable fields and its methods are proved to
 * perform exactly those steps.
 */
module PostCard {
  import Types
  import Actions
  import LikeDisplay

  /** The argument of `handleLike`: "like" or "unlike". */
  datatype LikeType = Like | Unlike

  /** The three gateway operations the card calls. */
  datatype Endpoint = LikeEndpoint | UnlikeEndpoint | DeleteEndpoint

  /**
   * How a like, unlike or delete call settles: a response carrying `error`, a
   * response carrying `success`, a response object with neither field, a null or
   * undefined response, or a rejected promise.
   */
  datatype Outcome = AppError(code: string) | Success | Neither | Nullish | Rejected

  datatype ToastKind = ErrorToast | SuccessToast

  /** One entry of the append-only effect log. */
  datatype Effect =
    | Call(endpoint: Endpoint, postId: string)
    | Toast(kind: ToastKind, text: string)
    | SignOut
    | Refetch(postId: string)
    | Reload
    | Navigate(path: string)

  const LoginRequired := "Please login to like a post"
  const SessionExpired := "Your session has expired please login again"
  const SomethingWentWrong := "Something went wrong"
  const PostLiked := "Post liked"
  const PostUnliked := "Post unliked"
  const PostDeleted := "Post deleted"
  const FeedRoot := "/"

  /** The number of times `e` occurs in `log`. */
  function Count(e: Effect, log: seq<Effect>): nat
  {
    if log == [] then 0 else (if log[0] == e then 1 else 0) + Count(e, log[1..])
  }

  /** An effect that does not occur in a log is counted zero times. */
  lemma {:induction false} CountAbsent(e: Effect, log: seq<Effect>)
    requires e !in log
    ensures Count(e, log) == 0
  {
    if log != [] {
      assert log[0] != e;
      CountAbsent(e, log[1..]);
    }
  }

  /** Counting distributes over concatenation. */
  lemma {:induction false} CountAppend(e: Effect, a: seq<Effect>, b: seq<Effect>)
    ensures Count(e, a + b) == Count(e, a) + Count(e, b)
  {
    if a == [] {
      assert a + b == b;
    } else {
      assert (a + b)[1..] == a[1..] + b;
      CountAppend(e, a[1..], b);
    }
  }

  /** The error codes the card reads as an expired session. */
  predicate IsSessionExpiredCode(code: string) {
    code == "unauthorized" || code == "TOKEN ERROR"
  }

  /**
   * A truthy `res.error` is reported the same way by like, unlike and delete:
   * an expired session gets the session notice and exactly one sign-out, and
   * never the verbatim toast; any other code is shown verbatim with no sign-out.
   */
  function ErrorEffects(code: string): (r: seq<Effect>)
    ensures Count(SignOut, r) == (if IsSessionExpiredCode(code) then 1 else 0)
    ensures Toast(ErrorToast, code) in r <==> !IsSessionExpiredCode(code)
    ensures Toast(ErrorToast, SessionExpired) in r <==> IsSessionExpiredCode(code) || code == SessionExpired
    ensures forall e :: e in r ==> e == SignOut || e.Toast?
    ensures |r| == (if IsSessionExpiredCode(code) then 2 else 1)
    ensures r[0] == Toast(ErrorToast, if IsSessionExpiredCode(code) then SessionExpired else code)
    ensures IsSessionExpiredCode(code) ==> r[1] == SignOut
  {
    if IsSessionExpiredCode(code) then
      var r := [Toast(ErrorToast, SessionExpired), SignOut];
      assert r[1..] == [SignOut] && r[1..][1..] == [];
      assert Count(SignOut, r[1..]) == 1;
      r
    else
      CountAbsent(SignOut, [Toast(ErrorToast, code)]);
      [Toast(ErrorToast, code)]
  }

  /** `res?.error` is truthy: a response carrying a non-empty error code. */
  predicate HasError(outcome: Outcome) {
    outcome.AppError? && outcome.code != ""
  }

  /**
   * The outcomes the like handler treats as a failed call: a truthy error, or an
   * exception (a rejected call, or reading `res.success` of a null response).
   */
  predicate Fails(outcome: Outcome) {
    HasError(outcome) || outcome.Rejected? || outcome.Nullish?
  }

  /** What the `.then`/`.catch` of a like or unlike call does: its effects and its `setIsLiked`, if any. */
  datatype Reaction = Reaction(effects: seq<Effect>, setLiked: Types.Option<bool>)

  /**
   * The reaction to a settled like (unlike) call. A success refetches once, sets
   * the flag to true (false) and toasts; a failure sets it to false (true); a
   * response with neither a truthy error nor success does nothing. A null
   * response fails because reading `res.success` throws into the catch.
   */
  function LikeReaction(kind: LikeType, postId: string, outcome: Outcome): (r: Reaction)
    ensures Fails(outcome) ==> r.setLiked == Types.Some(kind == Unlike)
    ensures outcome.Success? ==> r.setLiked == Types.Some(kind == Like)
    ensures !Fails(outcome) && !outcome.Success? ==> r == Reaction([], Types.None)
    ensures Count(Refetch(postId), r.effects) == (if outcome.Success? then 1 else 0)
    ensures outcome.Success? ==>
              r.effects == [Refetch(postId), Toast(SuccessToast, if kind == Like then PostLiked else PostUnliked)]
    ensures HasError(outcome) ==> r.effects == ErrorEffects(outcome.code)
    ensures outcome.Rejected? || outcome.Nullish? ==> r.effects == [Toast(ErrorToast, SomethingWentWrong)]
    ensures forall e :: e in r.effects ==> !e.Call? && e != Reload && !e.Navigate?
  {
    match outcome
    case AppError(code) =>
      if code == "" then Reaction([], Types.None)
      else
        CountAbsent(Refetch(postId), ErrorEffects(code));
        Reaction(ErrorEffects(code), Types.Some(kind == Unlike))
    case Success =>
      var effects := [Refetch(postId), Toast(SuccessToast, if kind == Like then PostLiked else PostUnliked)];
      assert effects[1..] == [effects[1]] && effects[1..][1..] == [];
      assert Count(Refetch(postId), effects[1..]) == 0;
      Reaction(effects, Types.Some(kind == Like))
    case Neither => Reaction([], Types.None)
    case Nullish => Reaction([Toast(ErrorToast, SomethingWentWrong)], Types.Some(kind == Unlike))
    case Rejected => Reaction([Toast(ErrorToast, SomethingWentWrong)], Types.Some(kind == Unlike))
  }

  /**
   * The reaction to a settled delete call: a truthy error is reported and the
   * card stays; any other response (including a missing one) toasts "Post
   * deleted", then reloads, then navigates to the feed root; a rejection is
   * never observed, since the surrounding try/catch cannot catch it.
   */
  function DeleteReaction(outcome: Outcome): (r: seq<Effect>)
    ensures HasError(outcome) ==> r == ErrorEffects(outcome.code)
    ensures outcome.Rejected? ==> r == []
    ensures Reload in r <==> !HasError(outcome) && !outcome.Rejected?
    ensures Navigate(FeedRoot) in r <==> !HasError(outcome) && !outcome.Rejected?
    ensures !HasError(outcome) && !outcome.Rejected? ==> r == [Toast(SuccessToast, PostDeleted), Reload, Navigate(FeedRoot)]
  {
    match outcome
    case AppError(code) =>
      if code != "" then ErrorEffects(code) else [Toast(SuccessToast, PostDeleted), Reload, Navigate(FeedRoot)]
    case Rejected => []
    case _ => [Toast(SuccessToast, PostDeleted), Reload, Navigate(FeedRoot)]
  }

  function EndpointOf(kind: LikeType): Endpoint {
    if kind == Like then LikeEndpoint else UnlikeEndpoint
  }

  /**
   * The state of one mounted card. `isPending` belongs to React's transition
   * scheduler: the handlers read it and never change it.
   */
  datatype CardState = CardState(
    post: Types.Post,
    isLiked: bool,
    isPending: bool,
    showComments: bool,
    log: seq<Effect>)

  /** The state a card mounts with. */
  function Mount(post: Types.Post, loadComments: bool, isLikedByUser: bool): (s: CardState)
    ensures s.post == post && s.isLiked == isLikedByUser && s.showComments == loadComments
    ensures !s.isPending && s.log == []
  {
    CardState(post, isLikedByUser, false, loadComments, [])
  }

  /**
   * `handleLike`: the pending guard first, then the login guard, then one
   * gateway call whose outcome is classified. The post snapshot is never
   * touched, and the flag is only assigned once the call has settled.
   */
  function LikeStep(s: CardState, kind: LikeType, loggedIn: bool, outcome: Outcome): (t: CardState)
    ensures s.log <= t.log
    ensures t.post == s.post && t.isPending == s.isPending && t.showComments == s.showComments
    ensures s.isPending ==> t == s
    ensures !s.isPending && !loggedIn ==> t == s.(log := s.log + [Toast(ErrorToast, LoginRequired)])
    ensures !s.isPending && loggedIn ==>
              var r := LikeReaction(kind, s.post.id, outcome);
              t.log == s.log + [Call(EndpointOf(kind), s.post.id)] + r.effects
              && t.isLiked == (if r.setLiked.Some? then r.setLiked.value else s.isLiked)
  {
    if s.isPending then s
    else if !loggedIn then s.(log := s.log + [Toast(ErrorToast, LoginRequired)])
    else
      var r := LikeReaction(kind, s.post.id, outcome);
      s.(log := s.log + [Call(EndpointOf(kind), s.post.id)] + r.effects,
         isLiked := if r.setLiked.Some? then r.setLiked.value else s.isLiked)
  }

  /**
   * `handleDelete`: no pending guard and no login guard; one gateway call, then
   * the delete reaction. No field of the card changes.
   */
  function DeleteStep(s: CardState, outcome: Outcome): (t: CardState)
    ensures t.post == s.post && t.isLiked == s.isLiked && t.isPending == s.isPending && t.showComments == s.showComments
    ensures t.log == s.log + [Call(DeleteEndpoint, s.post.id)] + DeleteReaction(outcome)
  {
    s.(log := s.log + [Call(DeleteEndpoint, s.post.id)] + DeleteReaction(outcome))
  }

  /**
   * The `updatedPost` callback, given how `getPostById` settled: a truthy error
   * is toasted; a post replaces the snapshot wholesale; nothing else changes,
   * and in particular the liked flag is never reverted.
   */
  function RefetchStep(s: CardState, res: Actions.Settled<Types.Option<Actions.ActionResult>>): (t: CardState)
    ensures t.isLiked == s.isLiked && t.isPending == s.isPending && t.showComments == s.showComments
    ensures t.post == (if res.Resolved? && res.value.Some? && res.value.value.PostReply? && res.value.value.post.Some?
                       then res.value.value.post.value else s.post)
    ensures t.log == (if res.Resolved? && res.value.Some? && res.value.value.ErrorReply? && res.value.value.error != ""
                      then s.log + [Toast(ErrorToast, res.value.value.error)] else s.log)
  {
    if res.Resolved? && res.value.Some? then
      match res.value.value
      case ErrorReply(error) => if error != "" then s.(log := s.log + [Toast(ErrorToast, error)]) else s
      case PostReply(post) => if post.Some? then s.(post := post.value) else s
    else s
  }

  /** The comments icon: flips `showComments` and nothing else. */
  function ToggleStep(s: CardState): (t: CardState)
    ensures t.showComments == !s.showComments
    ensures t.post == s.post && t.isLiked == s.isLiked && t.isPending == s.isPending && t.log == s.log
  {
    s.(showComments := !s.showComments)
  }

  /** The like summary the card shows in a given state. */
  function Summary(s: CardState): string {
    LikeDisplay.LikeSummary(s.post.likes)
  }

  /** One mounted post card, its state held in the fields React's state hooks hold. */
  class Controller {
    var currPost: Types.Post
    var isLiked: bool
    var isPending: bool
    var showComments: bool
    var log: seq<Effect>

    function State(): CardState
      reads this
    {
      CardState(currPost, isLiked, isPending, showComments, log)
    }

    constructor (post: Types.Post, loadComments: bool, isLikedByUser: bool)
      ensures State() == Mount(post, loadComments, isLikedByUser)
    {
      currPost := post;
      isLiked := isLikedByUser;
      isPending := false;
      showComments := loadComments;
      log := [];
    }

    /**
     * Stands for React's transition scheduler, which owns `isPending`: it marks
     * a transition as started or finished and changes nothing else.
     */
    method SetPending(pending: bool)
      modifies this`isPending
      ensures State() == old(State()).(isPending := pending)
    {
      isPending := pending;
    }

    /** The error reporting the three handlers share. */
    method ReportError(code: string)
      modifies this`log
      ensures log == old(log) + ErrorEffects(code)
    {
      if code == "unauthorized" || code == "TOKEN ERROR" {
        log := log + [Toast(ErrorToast, SessionExpired)];
        log := log + [SignOut];
      } else {
        log := log + [Toast(ErrorToast, code)];
      }
    }

    method HandleLike(kind: LikeType, loggedIn: bool, outcome: Outcome)
      modifies this
      ensures State() == LikeStep(old(State()), kind, loggedIn, outcome)
    {
      if isPending {
        return;
      }
      if !loggedIn {
        log := log + [Toast(ErrorToast, LoginRequired)];
        return;
      }
      var id := currPost.id;
      log := log + [Call(EndpointOf(kind), id)];
      match outcome {
        case AppError(code) =>
          if code != "" {
            ReportError(code);
            isLiked := kind == Unlike;
          }
        case Success =>
          log := log + [Refetch(id)];
          if kind == Like {
            isLiked := true;
            log := log + [Toast(SuccessToast, PostLiked)];
          } else {
            log := log + [Toast(SuccessToast, PostUnliked)];
            isLiked := false;
          }
        case Neither =>
        case Nullish =>
          log := log + [Toast(ErrorToast, SomethingWentWrong)];
          isLiked := kind == Unlike;
        case Rejected =>
          log := log + [Toast(ErrorToast, SomethingWentWrong)];
          isLiked := kind == Unlike;
      }
    }

    method HandleDelete(outcome: Outcome)
      modifies this`log
      ensures State() == DeleteStep(old(State()), outcome)
    {
      log := log + [Call(DeleteEndpoint, currPost.id)];
      if outcome.Rejected? {
        return;
      }
      if outcome.AppError? && outcome.code != "" {
        ReportError(outcome.code);
      } else {
        log := log + [Toast(SuccessToast, PostDeleted)];
        log := log + [Reload];
        log := log + [Navigate(FeedRoot)];
      }
    }

    method ApplyRefetch(res: Actions.Settled<Types.Option<Actions.ActionResult>>)
      modifies this`log, this`currPost
      ensures State() == RefetchStep(old(State()), res)
    {
      if res.Resolved? && res.value.Some? && res.value.value.ErrorReply? && res.value.value.error != "" {
        log := log + [Toast(ErrorToast, res.value.value.error)];
      }
      if res.Resolved? && res.value.Some? && res.value.value.PostReply? && res.value.value.post.Some? {
        currPost := res.value.value.post.value;
      }
    }

    method ToggleComments()
      modifies this`showComments
      ensures State() == ToggleStep(old(State()))
    {
      showComments := !showComments;
    }
  }
}

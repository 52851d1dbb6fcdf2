# Post card interaction model

This project models the post card of a social feed client in Dafny. The post card is the component that shows one post and lets the user like, unlike or delete it. The project also models the two server actions that create a post and fetch one by id.

- **Card state** (`PostCard.CardState`, held by the class `PostCard.Controller`): the current post snapshot (`currPost`), the `isLiked` and `isPending` flags, the `showComments` flag, and an append-only log of foreign effects.
- **Effect log entries**: gateway calls, toasts with their text, `signOut`, refetch requests, `location.reload` and navigation to `"/"`.
- **Handlers**: each gateway call is resolved by an abstract `Outcome`:
  - a response with `error`;
  - a response with `success`;
  - a response object with neither field;
  - a null or undefined response;
  - a rejected promise.

  The handlers are `HandleLike`, `HandleDelete`, `ApplyRefetch` (the `updatedPost` callback) and `ToggleComments`. Each is an imperative method proved to perform exactly the step that a pure function (`LikeStep`, `DeleteStep`, `RefetchStep`, `ToggleStep`) describes. The properties the card promises are proved about those functions in `PostCardProperties`.
- **Like summary** (`LikeDisplay`): the three conditional lines under the heart icon. Counts are rendered as decimal digits.
- **Server actions** (`Actions`): `post` and `getPostById` are pure functions of three inputs: the session (a user or none), the schema verdict and the transport outcome. Each returns its result together with the trace of session lookups and HTTP requests it made, so the order of its guards can be stated.

The model follows the code where it departs from the intended optimistic like protocol, and in its other edge cases:

- **`isLiked` is never flipped before the call.** It is assigned only when the call settles (`components/post/post-card.tsx:55-75`).
- **Rollback writes a fixed value.** A failed like sets `isLiked` to `false` and a failed unlike sets it to `true`, whatever the flag was before. `FailureRestoresFlag` proves that this equals the value before the click when the card offers "like" only on a post that is not liked.
- **`handleDelete` has no pending guard.** Only the menu item is disabled while a transition is pending.
- **Some delete responses count as success.** A null delete response, or one without a truthy `error`, is treated as a success: it toasts, reloads and navigates.
- **A null like or unlike response counts as an error.** Reading `res.success` on it throws, so it takes the "Something went wrong" branch.
- **Empty error codes count as no error.** An empty error code is falsy and is handled as if no error were present.
- **`getPostById` can reject.** Its catch block reads `error.response.data.message` without optional chaining, so a failure with no HTTP response makes the action reject instead of returning "Post does not exist".

## Model

| member | source | states |
|---|---|---|
| Actions.CreatePost | actions/post.ts:8-31 | no user gives "Unauthorized" after only the session lookup and before schema validation; an invalid input gives "Post Cannot be empty" with no request; otherwise exactly one request carrying the session's token; success gives `{post}`; failure gives the non-empty server message, else "Something went wrong"; every error returned is non-empty |
| Actions.GetPostById | actions/post.ts:33-49 | an empty id gives `null` with no session lookup and no request; no user gives "Unauthorized" with no request; otherwise one request with the user's token; success gives `{post}`; a server reply gives its message, else "Post does not exist"; a failure without a response rejects |
| Actions.MessageOr | actions/post.ts:29 | JavaScript's or-fallback on the server message: the result is the fallback, or the server message when that message is present and non-empty |
| Actions.RequestsNeedAUser | actions/post.ts:9-43 | every request either action sends follows a successful session lookup and carries that user's token; `post` sends none for an invalid input, `getPostById` none for an empty id |
| LikeDisplay.DecimalString | components/post/post-card.tsx:200-201 | the rendered count is a non-empty string of decimal digits with no leading zero, and has two or more digits exactly when the number is 10 or more |
| LikeDisplay.DecimalRoundTrip | components/post/post-card.tsx:200-201 | the rendered digits read back as the number rendered |
| LikeDisplay.SummaryLines | components/post/post-card.tsx:192-203 | of the three independently guarded lines, exactly one is rendered; when there are likes, it starts with "Liked by" and the first liker's name |
| LikeDisplay.LikeSummary | components/post/post-card.tsx:192-203 | "Be the first to like" exactly when there are no likes; with one like, "Liked by" and that user's name; with more, a line starting with "Liked by " followed by the first liker's name |
| LikeDisplay.OthersCountShown | components/post/post-card.tsx:198-203 | with two or more likes the line is "Liked by A and N others", where N reads back as the number of likes minus one |
| LikeDisplay.SummaryExamples | components/post/post-card.tsx:192-203 | no likes, one like and three likes give "Be the first to like", "Liked by A" and "Liked by A and 2 others" |
| PostCard.ErrorEffects | components/post/post-card.tsx:59-62 | "unauthorized" and "TOKEN ERROR" yield exactly the session-expired notice followed by one sign-out, and never the verbatim toast; any other code yields exactly the verbatim toast and no sign-out |
| PostCard.LikeReaction | components/post/post-card.tsx:56-96 | a failure (truthy error, null response, rejection) sets the flag to false for like and true for unlike; a success sets it to true or false and appends exactly one refetch followed by the "Post liked" or "Post unliked" toast; a response with neither field changes nothing; no reaction calls the gateway, reloads or navigates |
| PostCard.DeleteReaction | components/post/post-card.tsx:104-117 | a truthy error is classified like a like error, with no reload and no navigation; a rejection shows nothing; any other response toasts "Post deleted", then reloads, then navigates to "/" |
| PostCard.Mount | components/post/post-card.tsx:30-35 | a card mounts with the given post, liked flag and comment visibility, not pending, with an empty log |
| PostCard.LikeStep | components/post/post-card.tsx:48-99 | a pending card is left unchanged; without a user only "Please login to like a post" is logged; otherwise one gateway call is logged, followed by the like reaction; the snapshot and the other flags never change, and the log only grows |
| PostCard.DeleteStep | components/post/post-card.tsx:101-120 | no guard: one delete call is logged, followed by the delete reaction; no field of the card changes |
| PostCard.RefetchStep | components/post/post-card.tsx:38-46 | a delivered post replaces the snapshot wholesale; a non-empty error is only toasted; null, a missing post and a rejection change nothing; the liked flag is never reverted |
| PostCard.ToggleStep | components/post/post-card.tsx:188 | flips `showComments` and nothing else |
| PostCard.Controller.constructor | components/post/post-card.tsx:30-35 | the fields start as the mount state |
| PostCard.Controller.SetPending | components/post/post-card.tsx:33 | the transition scheduler sets `isPending` and nothing else changes |
| PostCard.Controller.ReportError | components/post/post-card.tsx:59-62 | appends the error classification to the log and changes nothing else |
| PostCard.Controller.HandleLike | components/post/post-card.tsx:48-99 | the new state is `LikeStep` of the old state |
| PostCard.Controller.HandleDelete | components/post/post-card.tsx:101-120 | only the log changes, and the new state is `DeleteStep` of the old state |
| PostCard.Controller.ApplyRefetch | components/post/post-card.tsx:38-46 | only the log and `currPost` change, and the new state is `RefetchStep` of the old state |
| PostCard.Controller.ToggleComments | components/post/post-card.tsx:188 | only `showComments` changes, as `ToggleStep` says |
| PostCardProperties.PendingClicksAreIgnored | components/post/post-card.tsx:48-49 | any burst of like and unlike clicks while pending leaves the card exactly as it was: no call, no toast, no state change |
| PostCardProperties.LoggedOutLikeOnlyAsksToLogin | components/post/post-card.tsx:50-53 | without a user the only appended effect is "Please login to like a post" and no field changes |
| PostCardProperties.OneCallPerClick | components/post/post-card.tsx:54-78 | a handled like or unlike appends exactly one gateway call, for the card's post, before any other effect |
| PostCardProperties.LikeErrorRouting | components/post/post-card.tsx:58-85 | for like and unlike: session-expired codes give exactly one sign-out and the session notice but not the verbatim toast; other codes give the verbatim toast and no sign-out; the appended effects are exactly the call followed by the error classification |
| PostCardProperties.DeleteErrorRouting | components/post/post-card.tsx:104-111 | the same routing for delete: session-expired codes give the session notice, exactly one sign-out and no verbatim toast; other codes give the verbatim toast and no sign-out; no error toasts "Post deleted", reloads or navigates |
| PostCardProperties.FailureRestoresFlag | components/post/post-card.tsx:58-96 | a failed like leaves `isLiked` false and a failed unlike leaves it true, which is the flag's value before the click when the heart offered that action |
| PostCardProperties.InconclusiveResponseChangesNothing | components/post/post-card.tsx:57-70 | a response with neither a truthy error nor success changes nothing beyond the call record |
| PostCardProperties.SuccessConfirms | components/post/post-card.tsx:65-91 | a successful like (unlike) sets the flag to true (false) and appends exactly the call, one refetch of this post and the "Post liked" ("Post unliked") toast, in that order, with no sign-out |
| PostCardProperties.LikeNeverFabricatesLikes | components/post/post-card.tsx:48-99 | no like or unlike step changes the displayed like summary |
| PostCardProperties.ReconciliationReplaces | components/post/post-card.tsx:38-69 | after a successful like and a refetch that delivers post `p`, the card shows exactly `p`, its likes and its summary, with the flag confirmed |
| PostCardProperties.FailedRefetchKeepsFlag | components/post/post-card.tsx:38-46 | a refetch whose request fails does not revert the confirmed flag and leaves the snapshot unchanged |
| PostCardProperties.EmptyIdRefetchChangesNothing | actions/post.ts:34 | a refetch for an empty id settles with null and leaves the card unchanged |
| PostCardProperties.DeleteOrder | components/post/post-card.tsx:112-116 | a delete without a truthy error appends the call, "Post deleted", a reload and a navigation to "/", in that order; a rejected delete appends only the call |
| PostCardProperties.ToggleTwiceRestores | components/post/post-card.tsx:188 | toggling the comments twice restores the card |
| PostCardProperties.FirstLikeScenario | components/post/post-card.tsx:48-75 | for a post without likes: a logged-out click only logs the login notice; a logged-in successful like followed by the refetch gives `isLiked` and "Liked by U" |

## Left out

- JSX rendering, styling, images, links and the dropdown menu are not modelled. The delete menu item is disabled while pending (`components/post/post-card.tsx:149`), but that is rendering; `HandleDelete` itself has no guard.
- The heart icons are not modelled. The empty heart calls `handleLike("like")`, and the filled heart receives `handleLike` itself. `HeartFilled` is not part of this model, so which argument it passes is unknown. `FailureRestoresFlag` states its second clause under the assumption that the heart offers "unlike" only on a liked post.
- React's `useTransition` scheduling is not modelled. `isPending` is a plain field that the scheduler owns; `Controller.SetPending` stands for the scheduler starting or finishing a transition. The handlers read the flag and never write it, because in the code the transition spans only the synchronous callback.
- Concurrency is not modelled. Each handler runs its gateway call and the call's settlement as one step, so interleavings of overlapping calls are out of scope.
- The `try/catch` around `handleDelete` is not modelled. It cannot catch the asynchronous rejection, so a rejected delete logs only its call.
- `toast`, `signOut`, `router.push`, `location.reload` and the gateway calls are foreign side effects. They appear only as effect-log entries.
- The refetch is not run by the like handler. The handler logs a refetch request, and `ApplyRefetch` is called separately with the result of `getPostById`.
- HTTP calls (axios), `Authorization` header formatting and `console.log` are I/O. A request records only its input or id and the token it carries.
- The session lookup (`lib/auth.ts`) and the client-side `useCurrentUser` hook are not modelled. They become the `session` and `loggedIn` parameters.
- The post schema (zod) is not modelled. It becomes the `schemaValid` parameter.
- An HTTP error response whose body is missing is treated like a body without `message`.
- Post body, image and author are display-only, and comments are opaque. The model keeps the post's id, likes and comments.
- `routes.ts`, `components/auth/form-success.tsx`, `components/post/post-list.tsx` and the profile page hold no logic of the core.

# Meme feed: route guard, generate endpoint and client state, in Dafny

A model of the decision logic of a small social image feed built on Next.js.
Users write a prompt, the server asks an image-generation provider for a
picture, stores it as a meme row, and every visitor's feed shows it with like
and comment counts. The hosted database, the auth service, the realtime
channel and the image provider are outside the model: each call to them is a
parameter holding its outcome, and each call the code issues is returned as a
value, so that "no provider call" and "no row inserted" can be stated.

Modules, one per source file:

- `Middleware` (`middleware.ts`): the route guard. Paths are sorted into
  protected pages (`/create`, `/profile`, `/settings`) and sign-in pages
  (`/signin`, `/signup`) by string prefix. A protected page without a session
  redirects to `/signin`, and a sign-in page with a session redirects to `/`.
  The matcher excludes API, asset and favicon paths.
- `GenerateRoute` (`app/api/generate/route.ts`): `POST /api/generate`. It
  returns 401 without a session and 400 on a missing or empty prompt. It
  composes the provider prompt as `prompt` plus `. Style: <style>`. Any later
  failure gives 500. The stored row carries the user, the URL and the bare
  prompt.
- `ImagePost` (`components/image-post.tsx`): the optimistic like toggle of one
  post card, as a class with its two state fields. A pure `Toggle` function is
  its specification.
- `CreatePage` (`app/create/page.tsx`): the create page as a class. The click
  handler is split at its request into `Submit` and `Settle`, so the
  single-flight `generating` flag can be stated while the request is out.
- `Feed` (`app/page.tsx`): the home feed as a class (list and loading flag).
  It has the realtime insert handler and the mapping of rows to post cards.
- `AuthContext` (`contexts/auth-context.tsx`): the shared identity (user,
  loading), the auth-event listener, the default username derived from an
  email, `signUp`'s profile insert and `useAuth`'s guard.
- `EndToEnd`: lemmas that join the create page, the guard and the endpoint.
- `Wrappers`: `Option`, `Result` and JavaScript truthiness of optional strings.
- `Toast`: the notification a page shows after an action.

Behaviour of the code that the model keeps as written:

- The like toggle does not floor the count at zero on unliking
  (components/image-post.tsx:34). The model proves the invariant
  `likeCount == post.likes + (liked ? 1 : 0)` instead. So the shown count is
  never negative when the post's own count is not (`ImagePost.LikeCountBounded`).
- Counts are not clamped. A feed row's aggregate goes through `count || 0`
  only (app/page.tsx:107-108), so only a missing or zero count becomes 0.
- Neither the create page (app/create/page.tsx:39) nor the endpoint
  (app/api/generate/route.ts:23) trims the prompt. A prompt of blanks passes
  both checks (`EndToEnd.BlankPromptAccepted`).
- This feed page subscribes only to meme inserts (app/page.tsx:45-72); its
  like and comment counts are read once per fetch. Per-post count
  reconciliation and comment submission are not part of these files.

## Model

| member | source | states |
|---|---|---|
| Middleware.AnyPrefixIff | middleware.ts:16-18 | the `some(startsWith)` scan is true iff some listed route is a prefix of the path |
| Middleware.ProtectedRouteIff | middleware.ts:15-18 | a path is protected iff it starts with `/create`, `/profile` or `/settings` |
| Middleware.AuthRouteIff | middleware.ts:21-24 | a path is a sign-in page iff it starts with `/signin` or `/signup` |
| Middleware.PrefixNotSegment | middleware.ts:15-24 | matching is by prefix: `/createX` and `/profile/42` are protected, `/signupnow` is a sign-in page, `/` is neither |
| Middleware.RouteClassesDisjoint | middleware.ts:15-24 | no path is both protected and a sign-in page, so at most one redirect rule can apply |
| Middleware.DecisionTable | middleware.ts:26-36 | for an inspected path: redirect to `/signin` iff no session and protected; redirect to `/` iff a session and a sign-in page; otherwise pass through (both directions of each) |
| Middleware.PassThroughCases | middleware.ts:37-44 | a path the matcher excludes, or a request whose session lookup throws, passes through |
| Middleware.MatcherExclusions | middleware.ts:43-45 | paths whose first segment starts with `api`, `_next/static`, `_next/image` or `favicon.ico` never reach the guard and pass through for any session |
| Middleware.SignInInspected | middleware.ts:44 | `/signin` is not excluded by the matcher |
| Middleware.NoRedirectLoop | middleware.ts:26-34 | after either redirect, requesting its target with the same session passes through |
| Middleware.RedirectTargetsPass | middleware.ts:26-36 | `/signin` without a session and `/` with or without one pass through |
| GenerateRoute.ComposePromptSpec | app/api/generate/route.ts:30 | the provider prompt starts with the user's prompt; it equals the prompt iff the style is missing or empty; otherwise the rest is `. Style: ` and the style |
| GenerateRoute.ComposePromptExamples | app/api/generate/route.ts:30 | "a cat" with no or empty style gives "a cat"; with style "pixel" it gives "a cat. Style: pixel" |
| GenerateRoute.Post | app/api/generate/route.ts:12-66 | 401 without a session, with no calls. A throwing lookup or unreadable body gives 500. A missing or empty prompt gives 400 with no provider call. Otherwise the provider gets the composed prompt. No URL means 500 and no insert. A row is inserted iff all checks passed and a URL came back; it holds the session user, the URL and the bare prompt. The result is 200 iff the insert also succeeded, and it returns the stored URL. Any later failure is 500. |
| ImagePost.ToggleConsistent | components/image-post.tsx:32-39 | one click flips `liked` and keeps `likeCount == post.likes + (liked ? 1 : 0)` |
| ImagePost.ToggleTwiceRestores | components/image-post.tsx:32-39 | two clicks restore both the flag and the count |
| ImagePost.TogglesConsistent | components/image-post.tsx:29-39 | after n clicks from the initial state the invariant holds, `liked` iff n is odd, and the count is `post.likes + n % 2` |
| ImagePost.LikeCountBounded | components/image-post.tsx:29-39 | after any clicks the count stays within `post.likes` and `post.likes + 1`, so it is non-negative when `post.likes` is |
| ImagePost.ImagePostView.constructor | components/image-post.tsx:28-30 | a new card is unliked and shows `post.likes` |
| ImagePost.ImagePostView.HandleLike | components/image-post.tsx:32-39 | the new state is `Toggle` of the old one (count minus one if it was liked, else plus one), the invariant is kept and the comment count shown is still `post.comments` |
| CreatePage.StylesWellFormed | app/create/page.tsx:19-28 | eight styles with distinct keys, exactly modern, pixel, cartoon, realistic, anime, cyberpunk, vaporwave and renaissance |
| CreatePage.FailureDescription | app/create/page.tsx:58-80 | a non-OK response reports "Failed to generate image"; the request counts as failed unless an OK response's JSON was read |
| CreatePage.CreatePost.constructor | app/create/page.tsx:31-34 | empty prompt and style, not generating, no image |
| CreatePage.CreatePost.SetPrompt | app/create/page.tsx:96 | sets the prompt and nothing else |
| CreatePage.CreatePost.SetStyle | app/create/page.tsx:109 | sets the style and nothing else |
| CreatePage.CreatePost.Submit | app/create/page.tsx:38-56 | an empty prompt sends nothing and shows the prompt error; otherwise `generating` goes up, the body carries the prompt and style verbatim and the button is disabled |
| CreatePage.CreatePost.Settle | app/create/page.tsx:58-83 | `generating` ends false in every case and the button is enabled iff the prompt is non-empty; a failure keeps the old image and reports its description; success stores the response's `imageUrl` |
| CreatePage.CreatePost.HandleGenerate | app/create/page.tsx:38-84 | a request goes out iff the prompt is non-empty, with the prompt and style verbatim; then `Settle`'s outcome holds |
| Feed.ToPostFallbacks | app/page.tsx:100-111 | id, URL and author name are copied. Counts show 0 iff the aggregate is missing or zero. A missing or empty avatar becomes the dicebear URL seeded with the username, so the avatar is never empty. A null caption shows as an empty prompt. |
| Feed.FeedLikeCountNonNegative | app/page.tsx:107 | a card built from a row whose like aggregate is not negative never shows a negative like count, however often it is clicked |
| Feed.PostsOf | app/page.tsx:97-113 | one card per row, in feed order, each the row's mapping |
| Feed.ApplyInsertSpec | app/page.tsx:67-68 | a re-fetched meme is put at the head and the old list follows unchanged; a failed re-fetch changes nothing |
| Feed.ApplyInsertsSpec | app/page.tsx:54-70 | after any run of insert events the feed grows by the number of successful re-fetches, and the earlier feed is its tail, in order |
| Feed.Home.constructor | app/page.tsx:17-18 | empty feed, loading |
| Feed.Home.Posts | app/page.tsx:97-113 | one card per meme in the list |
| Feed.Home.LoadMemes | app/page.tsx:21-40 | loading ends whether the query succeeds or fails; on success the rows replace the list |
| Feed.Home.OnInsert | app/page.tsx:54-70 | the list becomes `ApplyInsert` of the old list, one longer with the new meme first on success, and loading is untouched |
| AuthContext.BeforeFirstAt | contexts/auth-context.tsx:49 | `split('@')[0]` is a prefix of the email, holds no `@`, and is followed by `@` unless it is the whole email |
| AuthContext.DefaultUsernameWellFormed | contexts/auth-context.tsx:49 | the default username is never empty and never holds `@` |
| AuthContext.DefaultUsernameSpec | contexts/auth-context.tsx:49 | for an email whose first `@` is at index i (or i is the length when it has none), the username is the text before it, or "user" when that is empty |
| AuthContext.DefaultUsernameFromEmail | contexts/auth-context.tsx:49 | without an email the username is "user"; any other name is a prefix of the email ending at its first `@` or at its end, and no name holds `@` |
| AuthContext.SignUp | contexts/auth-context.tsx:66-102 | a profile with the given username is inserted iff sign-up returned no error and a user; an auth error shows its message; a failed insert shows "Something went wrong"; success shows the confirmation |
| AuthContext.UseAuth | contexts/auth-context.tsx:172-177 | outside a provider it raises "useAuth must be used within an AuthProvider"; inside it returns the context |
| AuthContext.AuthProvider.constructor | contexts/auth-context.tsx:21-22 | no user, loading |
| AuthContext.AuthProvider.OnInitialSession | contexts/auth-context.tsx:28-31 | when the session check answers, `user` is the session's user or none and loading ends; a rejected check changes nothing |
| AuthContext.AuthProvider.OnAuthStateChange | contexts/auth-context.tsx:34-61 | after any event `user` is the session's user or none and loading is off, so pages are given exactly that context value; a profile is inserted iff the event is `SIGNED_IN`, a session exists and no profile was found; it carries the user's id, the default username, the avatar from the user's metadata and the time |
| EndToEnd.PageAndEndpointAgree | app/create/page.tsx:39-55 | the endpoint accepts the prompt of every request the page sends, and only those; the provider sees the prompt verbatim when no style was chosen, else with the style suffix |
| EndToEnd.BlankPromptAccepted | app/api/generate/route.ts:23 | a prompt of blanks passes both emptiness checks and reaches the provider unchanged |
| EndToEnd.CreatePageGuarded | middleware.ts:15-29 | `/create` without a session redirects to sign-in, with one it passes, and `/signin` without one passes |

## Left out

- Network, database, auth and realtime calls are outcomes given as parameters.
  The query text, filters, ordering by `created_at` and the aggregate counts
  are the backend's and are not reimplemented. Subscribing to and releasing
  the realtime channel and the auth listener are not modelled.
- Concurrency: every handler is one atomic step. Interleavings of the auth
  listener, the realtime listener and user clicks are not modelled. React's
  batching of state updates from a stale closure is not modelled either
  (e.g. two clicks before a re-render).
- The image provider's fixed request options (model, size, quality, image
  style) are not modelled; only the prompt sent to it is.
- JSON bodies are modelled with string or missing fields only. A prompt or
  style of another JSON type (a number, say) is not modelled.
- Time: `new Date().toISOString()` is the parameter `now`. The feed's
  `toLocaleDateString` formatting is not modelled; the card carries the row's
  raw timestamp.
- The matcher is modelled as a case-sensitive match on the path; a path
  holding a raw line terminator is not matched, as the regex's `.` requires.
  Next.js's other path handling (data routes, locales, base path) is not
  modelled.
- Logging (`console.error`), toasts' titles, router navigation and refresh,
  the delayed redirect after a successful generation, theme and all rendering.
- `signIn`, `signOut` and `signInWithProvider` in contexts/auth-context.tsx
  only call the auth service, show a toast and navigate; they are not
  modelled. The arguments `signUp` passes to the auth service (email,
  password, redirect URL) are not modelled, only its outcome.
- Rejections of `fetch` carry an error message. A rejection with a non-Error
  value, which would show "Failed to generate image", is not modelled.
- Numbers are unbounded integers: JavaScript's floating-point counts, NaN and
  precision are not modelled. Post ids are strings as stored, although the
  card's declared `Post.id` type is a number.

# Blog dashboard: session, route guard and list controllers in Dafny

This project models the decision and state-update logic of a Next.js blog dashboard.
Every remote call is an outcome parameter (`Ok(body)` or `Err(message)`). `confirm()`
is a boolean input. Navigation (`router.push`, `window.location.href`) and toasts are
returned values.

- `Middleware` (middleware.dfy) is the edge route guard. It decides from the pathname and
  the `token` cookie alone. It is modelled as written, and the evidently intended guard
  sits beside it (see Findings).
- `AuthSession` (auth_session.dfy) is the session store `AuthProvider`, a class with
  `user`, `loading` and the pathname its resolve effect last ran for.
- `ListCache` (list_cache.dfy) holds the `filter` a delete applies, the `map` a save
  applies, and the loading / error / empty / list render precedence. The posts list and
  the users table share them.
- `AllPosts` (all_posts.dfy) and `AllUsers` (all_users.dfy) are the two list controllers.
  Each is a class over its cached list, its `loading` and `error` cells and, for posts,
  the single edit draft.
- `CreateBlog` (create_blog.dfy) is the creation form. It includes JavaScript `trim()` and
  UTF-16 `.length`, which decide `isValid`.
- `LoginForm` (login_form.dfy) is the login handler. It picks the error message and copies
  the identity into the session store.
- `DashboardPage` and `HomePage` (pages.dfy) are the role-dependent menu, the panel
  selection and the home page's redirect decision.
- `AccessFlow` (access_flow.dfy) composes the guard, the store, the home page and the
  login form into whole navigations: a dashboard request with a stale or missing token,
  a visit to `/`, and a successful login.
- `JsValues` and `Identity` (js_values.dfy) hold the JavaScript conventions: truthiness,
  `??` versus `||`, and the `User` identity record.

An asynchronous handler whose first synchronous step changes state is split at its
`await` into `Begin…` and `Settle…`. This applies to `fetchPosts`, `fetchUsers`, the
create form's `handleSubmit` and the login `onSubmit`. A React effect is a method that
compares its dependency with the value it last ran for.

Some behaviour of the code is easy to misread. The model keeps it as written:
- The guard's allow-list entry `"/"` is matched with `startsWith`
  (middleware.ts:7-10). It therefore admits every path that begins with `/`.
- The session store's `loading` starts true (context/AuthContext.tsx:32) and is only
  ever set to false (context/AuthContext.tsx:61-63). A pathname change re-runs the
  resolution without raising it again.
- A successful list fetch stores the new list but never resets `error`
  (components/dashboard/all-posts.tsx:49, components/dashboard/all-users.tsx:47). An
  error shown by an earlier failure stays on screen.
- The posts list re-fetches when its `myBlogsOnly` prop changes, without first emptying
  its cache (components/dashboard/all-posts.tsx:58-60). The dashboard page never changes
  that prop on a mounted list: its two lists sit in separate slots
  (app/dashboard/page.tsx:54-56), so a menu switch mounts a fresh list with an empty
  cache.

## Model

| member | source | states |
|---|---|---|
| `JsValues.Truthy` | middleware.ts:18 | A string is falsy exactly when it is absent or empty |
| `JsValues.Coalesce` | components/dashboard/all-posts.tsx:52 | `??`: a present value is kept, even an empty one; only absence falls back |
| `JsValues.OrElse` | components/dashboard/all-posts.tsx:73 | `\|\|`: a truthy value is kept, every falsy one falls back; a non-empty fallback makes the result non-empty |
| `JsValues.CoalesceDiffersFromOrElse` | components/dashboard/all-posts.tsx:52-73 | The fetch fallback (`??`) and the delete fallback (`\|\|`) differ exactly on a present empty message; `\|\|` never yields an empty text |
| `Middleware.SomePrefixMeansOneMatches` | middleware.ts:8-10 | `PUBLIC_PATHS.some(startsWith)` holds iff some listed prefix begins the pathname |
| `Middleware.Decide` | middleware.ts:4-24 | The guard either lets a request through or redirects it to `/login`; a truthy token, an allow-listed path and an `/api` path always pass; it redirects exactly when none of the three holds |
| `Middleware.PublicIffSlash` | middleware.ts:7-10 | Because `"/"` is listed and matched by prefix, a pathname is public exactly when it begins with `/` |
| `Middleware.SlashPathsAlwaysPass` | middleware.ts:7-15 | Every pathname beginning with `/` is public and allowed, with or without a token |
| `Middleware.ApiPathsAlwaysPass` | middleware.ts:13-15 | A pathname beginning with `/api` is always allowed |
| `Middleware.RedirectIff` | middleware.ts:7-23 | As written, a request is redirected iff its pathname does not begin with `/` and its token is falsy; the target is `/login` |
| `Middleware.TokenNeverRedirected` | middleware.ts:18-23 | A truthy token is never redirected |
| `Middleware.MissingTokenRedirects` | middleware.ts:18-20 | A non-public, non-API pathname without a truthy token is redirected to `/login` |
| `Middleware.TokenValueIrrelevant` | middleware.ts:5-18 | The decision depends on the token only through its truthiness, never its value |
| `Middleware.PrefixNotEquality` | middleware.ts:8-10 | `/loginXYZ` and `/register/anything` are public: the match is by prefix |
| `Middleware.DashboardPassesWithoutToken` | middleware.ts:7-15 | `/dashboard` with no token, or with an empty one, is let through |
| `Middleware.DecideIntended` | middleware.ts:7-20 | The corrected guard, with `/` public only on its own: redirects to `/login` exactly when the token is falsy and the path is neither `/`, nor under `/login`, `/register` or `/api` |
| `Middleware.IntendedGuardsDashboard` | middleware.ts:7-20 | With `/` matched exactly, a dashboard request is redirected to `/login` iff its token is falsy |
| `Middleware.IntendedRefinesWritten` | middleware.ts:7-23 | The intended guard redirects wherever the written one does, and never redirects a token-bearing or allow-listed request |
| `AuthSession.FailureNav` | context/AuthContext.tsx:56-60 | A failed resolution pushes `/login` iff the pathname begins with `/dashboard`, otherwise it does not navigate |
| `AuthSession.SessionStore.constructor` | context/AuthContext.tsx:31-32 | The store starts with no user and `loading` true |
| `AuthSession.SessionStore.Resolve` | context/AuthContext.tsx:38-64 | Success sets the user to the response's `user` field without navigating; failure clears it and navigates as `FailureNav`; `loading` ends false |
| `AuthSession.SessionStore.Render` | context/AuthContext.tsx:37-66 | The resolution runs iff the pathname differs from the one it last ran for (or on mount); otherwise nothing changes; `loading` never goes from false to true |
| `AuthSession.SessionStore.SetUser` | context/AuthContext.tsx:31 | Replaces the identity wholesale; `loading` is unchanged and no call is made |
| `AuthSession.SessionStore.Logout` | context/AuthContext.tsx:68-77 | Whatever the remote call settles to, the user is cleared and `/login` is pushed; `loading` is unchanged |
| `ListCache.Without` | components/dashboard/all-posts.tsx:70 | The filtered cache is no longer than before, and no survivor carries the deleted id |
| `ListCache.WithoutCounts` | components/dashboard/all-users.tsx:67 | A delete removes exactly the items carrying the id; every other item keeps its number of occurrences |
| `ListCache.WithoutPreservesOrder` | components/dashboard/all-posts.tsx:70 | Survivors keep their relative order: each kept item lands at its rank, and ranks increase |
| `ListCache.WithoutAbsent` | components/dashboard/all-posts.tsx:70 | Deleting an id no item carries leaves the cache as it was |
| `ListCache.WithoutIdempotent` | components/dashboard/all-users.tsx:67 | Deleting the same id twice is deleting it once |
| `ListCache.DeletesCommute` | components/dashboard/all-posts.tsx:62-75 | Two successful deletes leave the same cache in either completion order |
| `ListCache.ReplaceWhere` | components/dashboard/all-posts.tsx:96 | A save keeps length and positions; exactly the entries with the id become the returned post |
| `ListCache.WithoutAfterReplace` | components/dashboard/all-posts.tsx:89-98 | A save whose result keeps the id touches only the entries a delete of that id would remove |
| `ListCache.ScreenFor` | components/dashboard/all-posts.tsx:105-108 | Render precedence: loading, then a truthy error, then empty, then the list of all rows |
| `AllPosts.PostsUrl` | components/dashboard/all-posts.tsx:45-47 | The own-posts endpoint iff `myBlogsOnly`, the all-posts endpoint otherwise |
| `AllPosts.RowFor` | components/dashboard/all-posts.tsx:122-173 | A post is shown as the edit form holding the draft iff its id is the one being edited; otherwise as itself, with controls iff `myBlogsOnly` |
| `AllPosts.Rows` | components/dashboard/all-posts.tsx:116-175 | One row per cached post in order; a post is shown as the draft form iff its id is the one being edited; Edit/Delete controls appear iff `myBlogsOnly` |
| `AllPosts.OneDraftAtATime` | components/dashboard/all-posts.tsx:38 | Every row shown as an edit form has the same id and shows the same draft |
| `AllPosts.AllPostsList.constructor` | components/dashboard/all-posts.tsx:30-40 | Empty cache, `loading` true, no error, no draft |
| `AllPosts.AllPostsList.SetMyBlogsOnly` | components/dashboard/all-posts.tsx:30-34 | The parent passes a new scope |
| `AllPosts.AllPostsList.Effect` | components/dashboard/all-posts.tsx:58-60 | A fetch starts iff the scope differs from the one last fetched for (or on mount) |
| `AllPosts.AllPostsList.BeginFetch` | components/dashboard/all-posts.tsx:42-48 | `loading` is raised and the URL follows the scope |
| `AllPosts.AllPostsList.SettleFetch` | components/dashboard/all-posts.tsx:48-55 | Success replaces the cache and keeps the error; failure keeps the cache and sets the message `??` "Failed to fetch posts"; `loading` ends false |
| `AllPosts.AllPostsList.HandleDelete` | components/dashboard/all-posts.tsx:62-75 | Declined: no call, no change. Success: cache is `Without` the id. Failure: cache unchanged, error toast `\|\|` "Failed to delete post" |
| `AllPosts.AllPostsList.StartEdit` | components/dashboard/all-posts.tsx:77-81 | The draft becomes the post's id, title and content (`\|\|` ""), replacing any earlier draft |
| `AllPosts.AllPostsList.CancelEdit` | components/dashboard/all-posts.tsx:83-87 | The draft is cleared to none / "" / "" |
| `AllPosts.AllPostsList.SetEditTitle` | components/dashboard/all-posts.tsx:124-128 | Typing sets the draft title |
| `AllPosts.AllPostsList.SetEditContent` | components/dashboard/all-posts.tsx:129-134 | Typing sets the draft content |
| `AllPosts.AllPostsList.SaveEdit` | components/dashboard/all-posts.tsx:89-103 | Sends the draft; success replaces entries by id and clears the draft; failure leaves the cache and the draft unchanged |
| `AllPosts.AllPostsList.View` | components/dashboard/all-posts.tsx:105-175 | The spinner iff loading; otherwise the error iff it is truthy; otherwise the empty notice iff no posts are cached; otherwise the rows of `Rows` |
| `AllUsers.AllUsersTable.constructor` | components/dashboard/all-users.tsx:36-38 | Empty cache, `loading` true, no error |
| `AllUsers.AllUsersTable.Effect` | components/dashboard/all-users.tsx:56-58 | The fetch starts on the first render only |
| `AllUsers.AllUsersTable.BeginFetch` | components/dashboard/all-users.tsx:40-46 | `loading` is raised for the users endpoint |
| `AllUsers.AllUsersTable.SettleFetch` | components/dashboard/all-users.tsx:47-53 | Success sets the cache to the response's `users`; failure sets the message `??` "Failed to fetch users"; `loading` ends false |
| `AllUsers.AllUsersTable.HandleDelete` | components/dashboard/all-users.tsx:60-73 | Declined: no call, no change. Success: cache is `Without` the id. Failure: cache unchanged |
| `AllUsers.AllUsersTable.View` | components/dashboard/all-users.tsx:75-78 | The spinner iff loading; otherwise the error iff it is truthy; otherwise the empty notice iff no users are cached; otherwise every cached user |
| `CreateBlog.TrimStart` | components/dashboard/create-blog.tsx:26 | The result is a suffix of the input; everything dropped is whitespace; it does not begin with whitespace |
| `CreateBlog.TrimEnd` | components/dashboard/create-blog.tsx:26 | The result is a prefix of the input; everything dropped is whitespace; it does not end with whitespace |
| `CreateBlog.Trim` | components/dashboard/create-blog.tsx:26 | The trimmed title is empty iff the title is all whitespace, and otherwise begins and ends with a visible character |
| `CreateBlog.TrimIsInfix` | components/dashboard/create-blog.tsx:26 | The trimmed title is a contiguous part of the title, with only whitespace before and after it |
| `CreateBlog.Utf16Length` | components/dashboard/create-blog.tsx:26 | `.length` lies between the number of code points and twice it |
| `CreateBlog.Utf16LengthAppend` | components/dashboard/create-blog.tsx:26 | `.length` of a concatenation is the sum of the lengths, so each code point contributes its own one or two units |
| `CreateBlog.IsValid` | components/dashboard/create-blog.tsx:26 | A valid title has at least two characters once trimmed; three trimmed characters always make it valid |
| `CreateBlog.SubmitDisabled` | components/dashboard/create-blog.tsx:104 | A submission in flight disables the button; with none in flight it is disabled exactly when the title is invalid |
| `CreateBlog.TrimIgnoresPadding` | components/dashboard/create-blog.tsx:26 | Whitespace around a title changes neither its trim nor its validity |
| `CreateBlog.BlankTitleInvalid` | components/dashboard/create-blog.tsx:26 | A title of whitespace only, the reset title "" among them, is invalid |
| `CreateBlog.TrimmedTitleValidity` | components/dashboard/create-blog.tsx:26 | A title without surrounding whitespace is valid iff its `.length` is at least 3 |
| `CreateBlog.TwoLetterTitleInvalid` | components/dashboard/create-blog.tsx:26 | Any two visible basic-plane characters (such as "Hi") are an invalid title |
| `CreateBlog.ThreeLetterTitleValid` | components/dashboard/create-blog.tsx:26 | Any three basic-plane characters with visible ends (such as "Hii") are a valid title |
| `CreateBlog.PaddedTitleStillShort` | components/dashboard/create-blog.tsx:26 | A two-letter title between spaces (such as " Hi ") is still invalid |
| `CreateBlog.ValidityCountsCodeUnits` | components/dashboard/create-blog.tsx:26 | Two visible code points, the second outside the basic plane, make a valid title |
| `CreateBlog.CreateBlogForm.constructor` | components/dashboard/create-blog.tsx:21-24 | Empty title and content, publish off, not loading |
| `CreateBlog.CreateBlogForm.SetTitle` | components/dashboard/create-blog.tsx:74 | Typing sets the title |
| `CreateBlog.CreateBlogForm.SetContent` | components/dashboard/create-blog.tsx:85 | Typing sets the content |
| `CreateBlog.CreateBlogForm.SetPublishNow` | components/dashboard/create-blog.tsx:97 | The switch sets the publish flag |
| `CreateBlog.CreateBlogForm.BeginSubmit` | components/dashboard/create-blog.tsx:28-40 | Invalid: nothing sent, nothing changed. Valid: `loading` raised and `{title, content, published}` sent with the title untrimmed |
| `CreateBlog.CreateBlogForm.SettleSubmit` | components/dashboard/create-blog.tsx:41-53 | Success resets to "" / "" / false (button then disabled); failure keeps all fields, message `??` "Failed to create blog"; `loading` ends false |
| `LoginForm.FirstError` | components/loginForm.tsx:74 | The first validation error's message, present exactly when a response carried a non-empty error list |
| `LoginForm.ServerMessage` | components/loginForm.tsx:75 | The response's `message`, absent when there was no response |
| `LoginForm.ErrorMessage` | components/loginForm.tsx:73-76 | First validation error if truthy, else the server message if truthy, else "Login failed"; never empty |
| `LoginForm.ErrorMessageFallbacks` | components/loginForm.tsx:73-76 | No response, or an empty error list with a blank message, gives "Login failed"; a blank first error yields to the message |
| `LoginForm.LoginFormState.constructor` | components/loginForm.tsx:39-40 | Not loading, no error |
| `LoginForm.LoginFormState.BeginSubmit` | components/loginForm.tsx:42-55 | `loading` true, error "", a missing field sent as "" |
| `LoginForm.LoginFormState.SettleSubmit` | components/loginForm.tsx:57-81 | Success: the store's identity is exactly the returned id, email, name, role and the dashboard loads. Failure: store untouched, error is `ErrorMessage`. `loading` ends false |
| `DashboardPage.MenuOptions` | app/dashboard/page.tsx:20-29 | Two entries, Blogs first; Users offered iff ADMIN, My Blogs iff not |
| `DashboardPage.Panels` | app/dashboard/page.tsx:53-58 | Exactly one panel: all posts for Blogs, users table for Users, own posts for MyBlogs |
| `DashboardPage.Render` | app/dashboard/page.tsx:18-58 | Placeholder iff there is no user; otherwise that role's menu and the selected panel |
| `DashboardPage.DashboardState.constructor` | app/dashboard/page.tsx:14-16 | The initial selection is Blogs |
| `DashboardPage.DashboardState.Click` | app/dashboard/page.tsx:37-49 | The selection becomes the clicked entry's value; a non-admin never selects Users |
| `HomePage.Home` | app/page.tsx:11-28 | While loading: "Loading..." and no navigation. Otherwise "Redirecting..." and a push to `/dashboard` if a user is present, else `/login` |
| `AccessFlow.StaleTokenOnDashboard` | context/AuthContext.tsx:56-60 | A dashboard request with a rejected token passes the guard and is then sent to `/login` with the user cleared |
| `AccessFlow.NoTokenOnDashboard` | middleware.ts:7-20 | As written, a token-less dashboard request passes the guard and only the store redirects it; the intended guard redirects it |
| `AccessFlow.RootAfterResolution` | app/page.tsx:11-19 | At `/` the store never navigates; the home page then sends an anonymous visitor to `/login` and a resolved one to `/dashboard` |
| `AccessFlow.LoginThenDashboard` | components/loginForm.tsx:57-67 | A successful login sends the credentials, stores the returned identity and loads `/dashboard` |

## Findings

| source | as written | input that shows it | evidently intended | confidence | as-written member | corrected member |
|---|---|---|---|---|---|---|
| middleware.ts:7-20 | `"/"` in `PUBLIC_PATHS` is matched with `startsWith`, so every pathname beginning with `/` is public and the token check is unreachable for them | `/dashboard` with no `token` cookie is allowed | `/` public as a page of its own, so a token-less `/dashboard` request is redirected to `/login` | high (not executed) | `Middleware.DashboardPassesWithoutToken` | `Middleware.DecideIntended`, `Middleware.IntendedGuardsDashboard` |

The rest of the model keeps the written guard `Middleware.Decide`, because it is what
the deployed code does. `AccessFlow` shows both guards: the written one relies on the
session store to send a token-less dashboard visitor away, and the intended one stops
that visitor at the edge.

## Left out

- HTTP transport is not modelled: axios, the shared client and its 10 s timeout, cookie
  forwarding and the base URL. Every call is an outcome parameter, and URLs are kept
  without the deployment base.
- Toasts, `confirm()`, `router.push` and `window.location.href` are inputs or returned
  values. A full page load is not modelled as remounting the store. After a successful
  login, `window.location.href` reloads the page. The session store is then mounted
  afresh and resolves the session again; the identity the login form stored is dropped.
- The console logging in the session store and the whole of `lib/cookie-test.ts` are
  left out: they are debugging I/O.
- `formatDate` is left out because it uses JavaScript `Date` and locale formatting.
  `createdAt` is an uninterpreted string.
- JSX markup, styling, the profile card, the static login and register pages and the
  build configuration are left out: they hold no decisions.
- The register form is left out. It posts its fields with a fixed `"USER"` role and
  navigates.
- Interleaving of in-flight requests is not modelled. Neither is a result arriving after
  unmount. Each handler settles atomically with the outcome it is given. The source has no
  stale-result guard.
- The guard's `matcher`, which excludes Next.js internals from the middleware, is not
  modelled: it is routing configuration.
- The leading space in the user-delete URL is not modelled. URL resolution belongs to
  axios.
- A response body of the wrong shape is not modelled. For example, a rejection whose
  response has no `data` makes the posts delete handler's `.data.message` throw. Bodies
  are typed datatypes.
- Titles and other strings are sequences of Unicode code points. A JavaScript string holding
  a lone surrogate cannot be represented, so `.length` and `trim()` over such strings are
  not modelled.
- `AuthSession.SessionStore.Resolve` takes the response's `user` field as an optional
  identity. A body without that field sets `user` to `undefined`, which the model treats
  the same as `null`.

# Maglo Finance: session, sign-in and navigation logic

A Dafny model of the parts of the Maglo Finance dashboard that make decisions
rather than draw pixels:

- the persisted session store `useAuthStore` (`AuthStore`): a user with their bearer
  token, and the `isAuthenticated` flag, written by `setUser` and `logout`;
- the sign-in / sign-up screen (`CredentialRules`, `AuthPage`): the form schemas, and
  what `onSignIn`, `onSignUp` and the mode link do with the API's reply;
- the root page's redirect (`Home`);
- the sidebar (`Sidebar`): the highlighted item, the click guard of the disabled
  Settings entry, the drawer toggle on narrow windows, and the two ways of logging out;
- the error boundary (`ErrorBoundary`): catching, retrying and choosing what to render.

The records come from `src/types/auth.ts` (`AuthTypes`). Objects whose fields the
source overwrites in place are classes: `AuthStore.Store`, `AuthPage.AuthScreen` and
`ErrorBoundary.Boundary`. Each class method is tied to a pure function of the old
state, and the properties are proved about those functions. The sidebar keeps no
state of its own. `Sidebar.SidebarView` is an append-only log of the effects the
sidebar performs, plus the store it logs out.

Inputs the model takes as parameters instead of computing them:

- the reply of `api.post`, or what it threw (`AuthTypes.Reply`);
- the outcome of the schema library's e-mail check (`emailOk`);
- `window.innerWidth`, the current `pathname` (`usePathname()`), the next-auth
  session, the sidebar's `isOpen` prop;
- the error a descendant throws, and the `fallback` prop.

Toasts and `router.push` targets are returned as values. The sidebar instead
records the effects it performs (`router.push`, `onToggle`, the store's `logout`,
`signOut`) in order, in a log.

Points where the code's exact behaviour is modelled as written:

- String lengths in the schemas are JavaScript lengths, counted in UTF-16 code units
  (`Utf16Length`). A character outside the Basic Multilingual Plane counts twice.
- The password pattern `^(?=.*[a-z])(?=.*[A-Z])(?=.*\d)` has no `s` flag, so `.` does
  not cross a line terminator (LF, CR, U+2028 or U+2029). Each required character must
  therefore occur before the first line terminator, whichever of the four it is
  (`PatternStopsAtLineBreak`). For a
  one-line password this is the plain rule "contains a lower-case letter, an
  upper-case letter and a digit" (`PatternOnSingleLine`).
- Every schema check of a field runs. For a short password that also misses the
  pattern the schema reports both issues, in the schema's order (`SignUpIssues`).
  The form resolver keeps only the first issue of each field, and the screen shows
  its message (`ShownMessage`). Such a password therefore shows only the length
  message (`ShownSignUpPasswordMessage`).
- A rejected reply falls back to the default text only when its message is empty
  (`message || default`). A thrown `Error` shows its own message even when that
  message is empty. Only a thrown non-`Error` value shows 'Bir hata oluştu'.
- A registration reply is judged by `success` alone. Its `data` is never read.
- The error boundary stores whatever was thrown, `undefined` included. A caught
  `undefined` still replaces the children with the fallback. The fallback's details
  panel appears only for a truthy error value (`DetailsShown`).

## Model

| member | source | states |
|---|---|---|
| AuthTypes.WithToken | src/store/auth.ts:17 | `{ ...user, token }` keeps the given token, and its user fields are exactly the user's |
| AuthTypes.StoredUserDecomposes | src/store/auth.ts:6 | a stored user is its profile plus its token, nothing more |
| AuthStore.InitialState | src/store/auth.ts:15-16 | the initial store holds no user, is not authenticated, and satisfies the invariant |
| AuthStore.SetUserState | src/store/auth.ts:17 | after `setUser(u, t)` the store is authenticated, holds token `t` and exactly `u`'s fields, and the invariant holds |
| AuthStore.LogoutState | src/store/auth.ts:18 | after `logout` no user is stored, the store is not authenticated, and the invariant holds |
| AuthStore.LogoutClears | src/store/auth.ts:18 | after `logout` the store is the initial one, from any prior state |
| AuthStore.TransitionsKeepConsistent | src/store/auth.ts:15-18 | both transitions establish `isAuthenticated <==> user != null` |
| AuthStore.LogoutIdempotent | src/store/auth.ts:18 | logging out twice is the same as once |
| AuthStore.LastSetUserWins | src/store/auth.ts:17 | a later `setUser` overwrites an earlier one completely |
| AuthStore.SetUserThenLogoutIsInitial | src/store/auth.ts:15-18 | `setUser` then `logout` gives back the initial state |
| AuthStore.Store.constructor | src/store/auth.ts:15-16 | a new store is in the initial state and satisfies the invariant |
| AuthStore.Store.SetUser | src/store/auth.ts:17 | overwrites both fields as `setUser` does and keeps the invariant |
| AuthStore.Store.Logout | src/store/auth.ts:18 | clears both fields and keeps the invariant |
| CredentialRules.Utf16Units | src/app/auth/page.tsx:17 | a character counts as one code unit, or two exactly when it lies above U+FFFF |
| CredentialRules.Utf16Length | src/app/auth/page.tsx:17 | JavaScript's length lies between the character count and twice it |
| CredentialRules.Utf16LengthOfBasicPlane | src/app/auth/page.tsx:21 | for Basic Multilingual Plane text the length is the character count |
| CredentialRules.LookaheadHolds | src/app/auth/page.tsx:25 | the lookahead `(?=.*[k])` at the start implies that the string contains a class-`k` character; without line terminators the two coincide |
| CredentialRules.ScanFinds | src/app/auth/page.tsx:25 | the scan succeeds only on strings that contain a class-`k` character |
| CredentialRules.ScanDecidesLookahead | src/app/auth/page.tsx:25 | the left-to-right scan holds exactly when the lookahead `(?=.*[k])` matches at the start |
| CredentialRules.PasswordPatternMatches | src/app/auth/page.tsx:25 | the pattern matches iff all three lookaheads, lower case, upper case and digit, hold at the start |
| CredentialRules.PatternOnSingleLine | src/app/auth/page.tsx:25 | without line breaks, the pattern holds iff the password contains a lower-case letter, an upper-case letter and a digit |
| CredentialRules.PatternStopsAtLineBreak | src/app/auth/page.tsx:25 | for a line without terminators, followed by any of LF, CR, U+2028 or U+2029 and then anything, a class-`k` character is found iff the line itself has one |
| CredentialRules.SignInIssues | src/app/auth/page.tsx:15-18 | sign-in reports at most two issues, none for the name field, each carrying its field's message |
| CredentialRules.SignUpIssues | src/app/auth/page.tsx:20-26 | sign-up reports at most four issues, each carrying its field's message |
| CredentialRules.ShownMessage | src/app/auth/page.tsx:205-209 | a field shows nothing iff no issue concerns it; otherwise it shows the message of the first issue that does |
| CredentialRules.ShownSignUpPasswordMessage | src/app/auth/page.tsx:23-25 | under the sign-up password the screen shows the length message if it is too short, else the pattern message if the pattern fails, else nothing |
| CredentialRules.SignInAcceptedIff | src/app/auth/page.tsx:15-18 | a sign-in form passes iff the e-mail passes and the password has at least 8 code units; no character rule applies |
| CredentialRules.SignUpAcceptedIff | src/app/auth/page.tsx:20-26 | a sign-up form passes iff the name has at least 2 code units, the e-mail passes, the password has at least 8, and all three lookaheads hold |
| CredentialRules.SignUpPasswordRule | src/app/auth/page.tsx:23-25 | for a one-line password of Basic Multilingual Plane characters: no password message iff at least 8 characters including a lower-case letter, an upper-case letter and a digit |
| CredentialRules.SignUpFullNameRule | src/app/auth/page.tsx:21 | the sign-up name gets no issue iff it has at least 2 code units, whatever the e-mail and password hold |
| CredentialRules.SignInPasswordRule | src/app/auth/page.tsx:17 | the sign-in password gets no issue iff it has at least 8 code units, whatever the e-mail check says |
| CredentialRules.SignUpPasswordPassesSignIn | src/app/auth/page.tsx:15-26 | every accepted sign-up password and e-mail also pass sign-in |
| CredentialRules.LowerCaseOnlyPassword | src/app/auth/page.tsx:15-26 | "abcdefgh" signs in but fails sign-up with exactly the pattern message |
| CredentialRules.ShortPlainPassword | src/app/auth/page.tsx:23-25 | "abc" at sign-up gets the length issue and then the pattern issue; the screen shows the length message |
| AuthPage.OrElse | src/app/auth/page.tsx:64 | the string fallback `message or fallback` gives the message unless it is empty |
| AuthPage.ThrownText | src/app/auth/page.tsx:67 | a thrown `Error` gives its own message, any other value 'Bir hata oluştu'; the text is empty only for an `Error` with an empty message |
| AuthPage.LoginGrant | src/app/auth/page.tsx:59 | a login reply grants credentials iff it was received, `success` holds and `data` is present; they are that `data` |
| AuthPage.SignInToast | src/app/auth/page.tsx:59-68 | the sign-in toast is a success toast exactly when credentials were granted |
| AuthPage.SignInNavigation | src/app/auth/page.tsx:59-65 | sign-in navigates iff credentials were granted, and then to `/dashboard` |
| AuthPage.RejectedLoginText | src/app/auth/page.tsx:63-65 | a refused login shows the server message, or 'Giriş başarısız' when it is empty, and does not navigate |
| AuthPage.ThrownLoginText | src/app/auth/page.tsx:66-68 | a thrown `Error` shows its message; any other thrown value shows 'Bir hata oluştu'; neither signs in |
| AuthPage.SignInErrorTextBlankOnlyForEmptyError | src/app/auth/page.tsx:64-68 | a blank error toast arises only from a thrown `Error` with an empty message |
| AuthPage.StoreAfterSignIn | src/app/auth/page.tsx:59-60 | the store is unchanged without a grant, and receives the granted user and token with one |
| AuthPage.SignInStoresIffNavigates | src/app/auth/page.tsx:59-65 | navigating to the dashboard means the store now holds the reply's user and token; no navigation means the store is untouched; the invariant is kept |
| AuthPage.RegisterAccepted | src/app/auth/page.tsx:79 | a registration can be accepted only when a reply was received |
| AuthPage.RegistrationIgnoresData | src/app/auth/page.tsx:79 | acceptance and the toast are the same whatever `data` the reply carries |
| AuthPage.SignUpToast | src/app/auth/page.tsx:79-88 | the sign-up toast is a success toast exactly when the reply was received with `success` |
| AuthPage.RejectedRegisterText | src/app/auth/page.tsx:83-85 | a refused registration shows the server message, or 'Kayıt başarısız' when it is empty |
| AuthPage.AuthScreen.constructor | src/app/auth/page.tsx:32-52 | the screen starts in sign-in mode, not loading, with empty sign-up fields |
| AuthPage.AuthScreen.ToggleMode | src/app/auth/page.tsx:328 | the mode link flips `isSignUp` and nothing else |
| AuthPage.AuthScreen.EditSignUpForm | src/app/auth/page.tsx:45-52 | typing into the sign-up form sets its values |
| AuthPage.AuthScreen.BeginRequest | src/app/auth/page.tsx:55 | a submission sets `isLoading` before awaiting the API |
| AuthPage.AuthScreen.CompleteSignIn | src/app/auth/page.tsx:57-71 | after the login reply: store updated exactly as `StoreAfterSignIn`, the toast and navigation as specified, `isLoading` false on every outcome |
| AuthPage.AuthScreen.CompleteSignUp | src/app/auth/page.tsx:77-91 | after the registration reply: on success back to sign-in mode with a reset form, otherwise mode and form unchanged; store untouched; `isLoading` false on every outcome |
| AuthPage.AuthScreen.OnSignIn | src/app/auth/page.tsx:54-72 | the whole `onSignIn`: as `CompleteSignIn`, and `isSignUp` is untouched |
| AuthPage.AuthScreen.OnSignUp | src/app/auth/page.tsx:74-92 | the whole `onSignUp`: never authenticates; as `CompleteSignUp` |
| AuthPage.AuthScreen.SubmitSignIn | src/app/auth/page.tsx:244 | a form with issues reports them and changes nothing; a clean one runs `onSignIn` |
| AuthPage.AuthScreen.SubmitSignUp | src/app/auth/page.tsx:145 | a form with issues reports them and changes nothing; a clean one runs `onSignUp` on the form's values |
| AuthPage.ToggleTwice | src/app/auth/page.tsx:328 | toggling twice restores the mode |
| Home.HomeRedirect | src/app/page.tsx:11-17 | the root page goes to exactly one of `/dashboard` (iff authenticated) and `/auth` (iff not) |
| Home.RedirectFollowsStoredUser | src/app/page.tsx:9-16 | on a consistent store the redirect goes to the dashboard iff a user is stored |
| Home.RedirectAfterSetUser | src/app/page.tsx:9-16 | after `setUser` the root page goes to `/dashboard` |
| Home.RedirectAfterLogout | src/app/page.tsx:9-16 | after `logout` the root page goes to `/auth` |
| Home.RedirectInitially | src/app/page.tsx:9-16 | a fresh store sends the visitor to `/auth` |
| Home.HomeEffect | src/app/page.tsx:11-17 | the effect pushes the route chosen from the live store's flag |
| Sidebar.ActiveIndices | src/components/Sidebar.tsx:29-66 | the highlighted items of `menuItems` are exactly those whose `href` equals the path (`active: pathname === href`) |
| Sidebar.HrefsDistinct | src/components/Sidebar.tsx:29-66 | the five menu `href`s are pairwise distinct |
| Sidebar.AtMostOneActive | src/components/Sidebar.tsx:29-66 | for any path at most one item has `pathname === href` |
| Sidebar.OwnPageHighlightsItem | src/components/Sidebar.tsx:35-63 | on an item's own path that item, and only it, is active |
| Sidebar.OnlySettingsDisabled | src/components/Sidebar.tsx:29-66 | the only disabled item is Settings |
| Sidebar.SettingsClickIsInert | src/components/Sidebar.tsx:117 | clicking the disabled Settings item neither navigates nor toggles |
| Sidebar.MenuClickEffects | src/components/Sidebar.tsx:68-74 | `handleMenuClick` pushes its `href` first, navigates to it and nowhere else, and toggles iff `innerWidth < 768` |
| Sidebar.ItemClickEffects | src/components/Sidebar.tsx:117 | a disabled item does nothing; an enabled one navigates only to its own `href`; it toggles iff it is enabled and `innerWidth < 768` |
| Sidebar.LogoutEffects | src/components/Sidebar.tsx:20-27 | `signOut('/auth')` happens iff a session user exists and the store's logout iff not; the latter comes first and is followed last by a push to `/auth` |
| Sidebar.LogoutBranches | src/components/Sidebar.tsx:20-27 | with a session user logout is only `signOut('/auth')`; without one it is the store's logout followed by a push to `/auth` |
| Sidebar.SidebarView.HandleMenuClick | src/components/Sidebar.tsx:68-74 | appends the push and, on narrow windows, the toggle |
| Sidebar.SidebarView.ClickItem | src/components/Sidebar.tsx:117 | a click runs `handleMenuClick` only for an enabled item |
| Sidebar.SidebarView.HandleLogoutClick | src/components/Sidebar.tsx:20-27 | with a session user the store is untouched; otherwise it is logged out, then `/auth` is pushed |
| Sidebar.SidebarView.ClickBackdrop | src/components/Sidebar.tsx:81-86 | the backdrop exists and toggles only while the drawer is open |
| ErrorBoundary.InitialBoundaryState | src/components/ErrorBoundary.tsx:16-19 | the boundary starts without an error |
| ErrorBoundary.DerivedStateFromError | src/components/ErrorBoundary.tsx:21-23 | catching sets `hasError` and records exactly the thrown value, `undefined` included |
| ErrorBoundary.RetryState | src/components/ErrorBoundary.tsx:29-31 | `retry` clears `hasError` and the stored error |
| ErrorBoundary.RenderView | src/components/ErrorBoundary.tsx:33-40 | children are shown iff `hasError` is false; a fallback receives the stored error value |
| ErrorBoundary.DetailsShown | src/components/ErrorBoundary.tsx:61 | the details panel is shown only when an error value is present |
| ErrorBoundary.DetailsAfterCatch | src/components/ErrorBoundary.tsx:21-67 | a thrown `Error` gets the details panel; a thrown `undefined` gets the default fallback without details |
| ErrorBoundary.CatchThenRetryIsInitial | src/components/ErrorBoundary.tsx:16-31 | retrying after a catch gives back the initial state, which a catch had left |
| ErrorBoundary.RenderChoosesByState | src/components/ErrorBoundary.tsx:33-40 | children are rendered iff no error is held; otherwise the fallback gets the error, the provided one if given, else `DefaultErrorFallback` |
| ErrorBoundary.RenderAfterCatchAndRetry | src/components/ErrorBoundary.tsx:21-40 | after a catch the fallback shows that error; after `retry` the children are back |
| ErrorBoundary.Boundary.constructor | src/components/ErrorBoundary.tsx:16-19 | a new boundary is in the initial state |
| ErrorBoundary.Boundary.Catch | src/components/ErrorBoundary.tsx:21-23 | merges the derived state: `hasError` set, that error stored |
| ErrorBoundary.Boundary.Retry | src/components/ErrorBoundary.tsx:29-31 | clears both fields |
| ErrorBoundary.Boundary.Render | src/components/ErrorBoundary.tsx:33-40 | renders children iff `hasError` is false, else a fallback carrying the stored error; on a well-formed boundary the children are shown only with no error stored |

## Left out

- Markup, styling, images and animation of every component: presentational only.
- The e-mail format check of the schema library: an opaque boolean input (`emailOk`).
- Toasts: they are output only, so the model returns their kind and text instead of displaying them.
- `console.error` in `componentDidCatch`, which is logging only.
- The `persist` middleware and local storage: the model keeps the store in memory only.
- `src/lib/api.ts`, the network client. Its replies and exceptions are inputs.
- Google sign-in (`handleGoogleSignIn`), next-auth's `signOut` and `SessionProvider`. These are calls into an external library. `signOut` appears only as a recorded effect.
- The Help button, whose click handler is empty.
- The buttons inside `DefaultErrorFallback`: the retry button calls `retry`, which is modelled; the home link reloads the page at `/`.
- Overlapping requests. The model lets any event run between `BeginRequest` and the completion of a request. It does not model two requests in flight at once: the source's disabled buttons prevent that while `isLoading` holds.
- React's batching and re-rendering, and the timing of effects.
- Chart, list, wallet and summary components: floating-point formatting and rendering only.
- CredentialRules.Utf16Length: a lone surrogate cannot occur in a Dafny `char`, so strings holding one, which JavaScript counts as one code unit each, are not modelled.
- `error.message` of a thrown non-`Error` value in the details panel: the model records only whether such a value is truthy, not what its `message` property holds.

# instasuite-client, modelled in Dafny

A model of the logic inside a small single-page client for the Instagram Graph API. The
client signs the user in through OAuth, keeps the bearer token in a cookie, shows the
profile, and shows a cursor-paginated media gallery with comments and replies. Almost all of
the client is view markup. What is modelled here is the logic underneath it:

- **Feed accumulator and pager** (`MediaGallery`). Each fetched page is merged into the items
  already loaded. An item whose id is already loaded is dropped; the others are appended in
  server order. The paging cursor is replaced and an error is recorded or cleared. A
  load-more is allowed only when the server gave a non-empty `cursors.after` and no
  load-more is pending. Caption truncation and the render precedence are also here:
  spinner, then error, then "No Posts Found", then the grid of items with a media URL.
- **Reply appender** (`MediaDetail`). A non-blank reply is appended to the comments with
  the given id; a blank one changes nothing.
- **Profile loader and session expiry** (`Profile`). On mount a `login_time` cookie at least
  1000 ms old removes both cookies. The fetch then runs with whatever token is left: no
  token, a profile, or a failure. The render precedence is spinner, error, "No Data", profile.
- **Shell** (`App`). A non-empty `token` URL parameter wins over the saved cookie and is
  saved for 1/24 of a day. The login screen is shown exactly when the token is empty.

The supporting modules are `JsValues` and `Cookies`. `JsValues` holds JavaScript truthiness
(`''` is falsy), `String.prototype.trim` and `Number(string)`. `Cookies` holds the cookie
store, as a map from cookie names to values plus the lifetime each cookie was written with.

Each React component is a class. Its fields are the component's `useState` variables, and
its methods are the handlers and effects, each with a `modifies` clause. The detail page's
`media` state (src/pages/MediaDetail.tsx:20) has no field: only the mock-data effect sets it,
and that effect is left out. A network request becomes a parameter of the method that
receives its result (`FetchOutcome`, `ProfileOutcome`), so every response of the modelled
shape and every failure is covered. Both components read the token from the cookie store
(`CookieJar`) when a load starts. The clock (`now`) and the URL parameter are parameters too. Each `loadMedia` call is one atomic step
(`Gallery.LoadMedia`). `Gallery.HandleLoadMore` is the handler's synchronous part: the guard
and setting `isLoadingMore`. It returns the cursor it requested, and the request then
completes with `Gallery.LoadMedia`. Between those two steps a load-more is pending, and a
second click issues nothing.

Some behaviour of the code is easy to misread; the model follows the code in each case:

- Without a token the gallery reports "An unexpected error occurred"
  (src/components/MediaGallery.tsx:168 and 190-193). It does not report a distinct "please
  log in" state, because the `Error` it throws is not an axios error.
- The profile loader always reports the fixed text "Failed to fetch profile"
  (src/components/Profile.tsx:60). It never shows a server message.
- The gallery has two flags. `loading` covers loads without a cursor; `isLoadingMore` covers
  load-mores. The load-more button is shown when `paging.next` is present
  (src/components/MediaGallery.tsx:274), but the guard tests `paging.cursors.after`
  (src/components/MediaGallery.tsx:208); `MediaGallery.ButtonWithoutCursor` shows the gap.
- The session check compares `login_time` against a 1000 ms threshold
  (src/components/Profile.tsx:18-24), while the token cookie lives one hour
  (src/App.tsx:19). No modelled file writes `login_time`: the login component stores its
  timestamp under `localStorage.loginTime` instead.
- Nothing sets `showGallery` back to false. The profile passes an `onClose` callback to the
  gallery (src/components/Profile.tsx:214), but the gallery ignores its props
  (src/components/MediaGallery.tsx:157).

## Model

| member | source | states |
|---|---|---|
| `JsValues.Truthy` | src/App.tsx:15 | a possibly absent string used as a condition is true exactly when it is present and non-empty |
| `JsValues.Trim` | src/pages/MediaDetail.tsx:54 | `s.trim()` is no longer than `s` and neither starts nor ends with white space |
| `JsValues.TrimCutsBlankEnds` | src/pages/MediaDetail.tsx:54 | `s.trim()` is the slice of `s` that starts after its leading white space, and what it leaves off at both ends is white space; with `Trim`'s ends clause this fixes the result as `s` with the white space at both ends removed |
| `JsValues.TrimEmptyIffBlank` | src/pages/MediaDetail.tsx:54 | `s.trim()` is empty exactly when every character of `s` is ECMAScript white space or a line terminator, so the blank test can be stated without trimming |
| `JsValues.StringToNumber` | src/components/Profile.tsx:22 | `Number(s)` of an empty or all-white-space string is 0, and of a string of decimal digits is its decimal value (the body also reads a sign and surrounding white space, and gives NaN, as `None`, for anything else) |
| `JsValues.DecimalRoundTrip` | src/components/Profile.tsx:22 | reading back the decimal form of a timestamp gives the timestamp |
| `Cookies.CookieJar.constructor` | src/App.tsx:24 | the store starts with the given cookies and no recorded lifetimes |
| `Cookies.CookieJar.Get` | src/App.tsx:24 | a cookie is present exactly when its name is in the store, with the stored value |
| `Cookies.CookieJar.Set` | src/App.tsx:19 | writing a cookie replaces its value and its lifetime and changes no other cookie |
| `Cookies.CookieJar.Remove` | src/components/Profile.tsx:25-26 | removing a cookie deletes exactly that name |
| `MediaGallery.KeepUnseen` | src/components/MediaGallery.tsx:182-183 | the filter keeps exactly the incoming items whose id is not already seen, in server order (a subsequence of the page) |
| `MediaGallery.Merge` | src/components/MediaGallery.tsx:181-185 | the loaded list is a prefix of the result; every appended item comes from the page and has an id not loaded before; every such page item is appended; the appended part keeps server order |
| `MediaGallery.MergeKeepsLoadedEntry` | src/components/MediaGallery.tsx:182-183 | an incoming item whose id is already loaded is in the result only if that same item was already loaded, so it never replaces the loaded entry |
| `MediaGallery.MergeLength` | src/components/MediaGallery.tsx:183-184 | the new length is the old length plus the number of page positions whose id was not already loaded |
| `MediaGallery.MergeIds` | src/components/MediaGallery.tsx:181-185 | after a merge the loaded ids are the old ids plus the page's ids, and no others |
| `MediaGallery.MergeKeepsUniqueIds` | src/components/MediaGallery.tsx:182-184 | unique ids stay unique after a merge when the page itself repeats no id |
| `MediaGallery.DuplicateWithinPageKept` | src/components/MediaGallery.tsx:182-184 | ids are checked only against items loaded before the page: an item repeated within one page is kept twice, and ids are then no longer unique |
| `MediaGallery.FirstSeen` | src/components/MediaGallery.tsx:181-185 | the reference order, keeping the first occurrence of each id, has unique ids and the same id set as its input |
| `MediaGallery.MergeFirstSeen` | src/components/MediaGallery.tsx:181-185 | merging a page with no repeated id into the first-seen list of earlier items gives the first-seen list of all items |
| `MediaGallery.AccumulateIsFirstSeen` | src/components/MediaGallery.tsx:181-185 | when no page repeats an id within itself, merging the pages one after another gives the ids in first-seen order across the concatenated pages, each once |
| `MediaGallery.MergeIntoEmpty` | src/components/MediaGallery.tsx:181-185 | the first page into an empty feed is taken whole |
| `MediaGallery.TwoPageMerge` | src/components/MediaGallery.tsx:181-185 | pages `[a, b]` then `[b, c]` accumulate to `[a, b, c]` |
| `MediaGallery.TruncateCaption` | src/components/MediaGallery.tsx:372-376 | a caption of at most `maxLength` characters is returned unchanged; a longer one becomes its first `maxLength` characters followed by `...`; the result is never longer than `maxLength + 3` |
| `MediaGallery.CardCaption` | src/components/MediaGallery.tsx:344-348 | a grid card shows a caption of at most 100 characters whole, and a longer one as its first 100 characters followed by `...`, 103 characters in all |
| `MediaGallery.WithMediaUrl` | src/components/MediaGallery.tsx:262-263 | the grid shows exactly the loaded items with a non-empty media URL, in loaded order, each as many times as it occurs in the loaded list |
| `MediaGallery.RenderGallery` | src/components/MediaGallery.tsx:214-297 | the spinner shows exactly while loading; otherwise the error panel shows exactly when there is a non-empty error; otherwise "No Posts Found" shows exactly when nothing is loaded; otherwise the grid shows `WithMediaUrl` of the items, with a load-more button exactly when `paging.next` is set, disabled while a load-more is pending |
| `MediaGallery.LoadMoreAllowed` | src/components/MediaGallery.tsx:208 | a load-more may start exactly when the paging has a non-empty `cursors.after` and none is pending |
| `MediaGallery.ButtonWithoutCursor` | src/components/MediaGallery.tsx:207-212 | a response with a `next` link but no cursor shows an enabled load-more button, and clicking it issues nothing |
| `MediaGallery.Gallery.constructor` | src/components/MediaGallery.tsx:158-163 | the gallery starts with no items, empty paging, `loading` set, no error, no pending load-more and no selected item |
| `MediaGallery.Gallery.LoadMedia` | src/components/MediaGallery.tsx:165-199 | the token is read from the token cookie. Without one nothing is requested and the error is "An unexpected error occurred". On success the page is merged, the paging is replaced and the error is cleared. On an HTTP error the error is the server's message, or "Failed to load media" when there is none; on any other failure it is "An unexpected error occurred". Items and paging change only on success. `loading` ends false after a load without a cursor and is untouched otherwise. `isLoadingMore` always ends false. Unique ids are kept when the page repeats none |
| `MediaGallery.Gallery.HandleLoadMore` | src/components/MediaGallery.tsx:207-212 | when the paging has a non-empty `cursors.after` and no load-more is pending, a load-more becomes pending and a load is issued with that cursor; otherwise nothing is issued and nothing changes |
| `MediaGallery.Gallery.Select` | src/components/MediaGallery.tsx:269 | clicking a card makes it the selected item shown in the overlay |
| `MediaGallery.Gallery.CloseModal` | src/components/MediaGallery.tsx:295 | closing the overlay clears the selected item |
| `MediaGallery.TwoPageScenario` | src/components/MediaGallery.tsx:165-212 | with a token cookie, page `[a, b]` with cursor `c1` followed by page `[b, c]` without a cursor yields `[a, b, c]`; a second load-more while one is pending issues nothing, and after the last page a load-more issues nothing |
| `MediaDetail.AddReply` | src/pages/MediaDetail.tsx:59 | a reply is added after the comment's existing replies, and the comment's id, author and text stay as they were |
| `MediaDetail.WithReply` | src/pages/MediaDetail.tsx:56-62 | the comment list keeps its length and order; each comment with the given id gets the reply appended to its replies, and every other comment is unchanged |
| `MediaDetail.WithReplyKeepsThreads` | src/pages/MediaDetail.tsx:57-60 | existing replies stay a prefix, nothing but the replies of a comment changes, and a matching comment gains exactly one reply |
| `MediaDetail.ReplyToUnknownId` | src/pages/MediaDetail.tsx:57-61 | a reply to an id no comment has leaves the comment list as it was |
| `MediaDetail.MediaDetailPage.constructor` | src/pages/MediaDetail.tsx:21-23 | the page starts with no comments, an empty reply text and no active comment |
| `MediaDetail.MediaDetailPage.ShowsReplyInput` | src/pages/MediaDetail.tsx:96 | a comment shows the reply input only when it is the active comment, and none does when no comment is active |
| `MediaDetail.MediaDetailPage.OpenReply` | src/pages/MediaDetail.tsx:113-115 | clicking Reply under a comment makes its id the active one; the comments with that id show the reply input |
| `MediaDetail.MediaDetailPage.EditReply` | src/pages/MediaDetail.tsx:101 | typing sets the reply text |
| `MediaDetail.MediaDetailPage.HandleReply` | src/pages/MediaDetail.tsx:53-65 | a blank reply changes nothing. Otherwise the untrimmed reply is appended to the comments with the id, the reply text becomes empty and no comment stays active, even when no comment matched |
| `MediaDetail.ReplyScenario` | src/pages/MediaDetail.tsx:96-115 | replying under the active comment appends the reply to that comment only, and afterwards no comment shows the input |
| `Profile.SessionExpired` | src/components/Profile.tsx:21-24 | the session is expired when `login_time` is non-empty, reads as a number, and lies at least 1000 ms before now |
| `Profile.SessionExpiredCases` | src/components/Profile.tsx:21-24 | only a non-empty `login_time` can expire the session; for a string of digits it expires exactly when at least 1000 ms have passed since that value; a non-empty all-blank value reads as 0 |
| `Profile.SessionExpiredAfterTimeout` | src/components/Profile.tsx:18-24 | with `login_time` holding a timestamp, the session is expired exactly when at least 1000 ms have passed since it |
| `Profile.NoLoginTimeNoExpiry` | src/components/Profile.tsx:21 | an absent or empty `login_time` never expires the session |
| `Profile.CheckSessionTimeout` | src/components/Profile.tsx:17-39 | on expiry the token and login-time cookies are removed and nothing else; without expiry no cookie changes |
| `Profile.RenderProfile` | src/components/Profile.tsx:73-217 | the spinner shows exactly while loading; otherwise the error shows exactly when there is a non-empty error; otherwise "No Data" shows exactly when there is no profile; otherwise the profile shows, with the gallery exactly when it has been opened |
| `Profile.ProfilePage.constructor` | src/components/Profile.tsx:11-14 | the component starts with no profile, `loading` set, no error and the gallery closed |
| `Profile.ProfilePage.FetchProfileData` | src/components/Profile.tsx:43-64 | without a token the error is "No access token found" and nothing is requested. Otherwise the response body becomes the profile, or a failure sets "Failed to fetch profile" and leaves the profile as it was. `loading` is false after every outcome |
| `Profile.ProfilePage.Mount` | src/components/Profile.tsx:16-67 | the expiry check runs before the fetch, so an expired session always ends in the missing-token error, with both cookies gone from the values and the lifetimes; otherwise the fetch outcomes are as in `FetchProfileData`, and `loading` ends false |
| `Profile.ProfilePage.HandlePostClick` | src/components/Profile.tsx:69-71 | opening the posts sets `showGallery`; no member of the component sets it back to false |
| `App.TokenLifetimeIsOneHour` | src/App.tsx:19 | the token cookie's lifetime of 1/24 of a day is 3,600,000 ms |
| `App.SelectToken` | src/App.tsx:15-27 | a non-empty URL token wins; the saved cookie is consulted only when the URL token is absent or empty; with neither the token is unchanged |
| `App.SelectTokenEmpty` | src/App.tsx:9-27 | starting from the initial empty token, the token stays empty exactly when neither the URL nor the cookie supplies a non-empty one |
| `App.ScreenFor` | src/App.tsx:33-39 | the login screen is shown exactly when the token is empty, the profile otherwise |
| `App.Shell.constructor` | src/App.tsx:9 | the shell starts with an empty token |
| `App.Shell.Init` | src/App.tsx:11-29 | the token becomes the selected one. A non-empty URL token is written to the token cookie with a lifetime of 1/24 of a day; otherwise no cookie changes |
| `App.Shell.View` | src/App.tsx:33-39 | the rendered screen is the login screen exactly when the shell's token is empty |
| `App.ExpiredSessionScenario` | src/components/Profile.tsx:16-67 | with a token and a `login_time` at least a second old, the shell still shows the profile component, but both cookies are gone and the profile shows "No access token found"; the profile stops at that error panel, so the gallery is never mounted |
| `App.OpenPostsScenario` | src/components/Profile.tsx:16-214 | with a token and no `login_time`, the profile loads the user, shows the card, and a click on the post count opens the gallery; the cookies are unchanged |
| `App.LapsedTokenScenario` | src/components/MediaGallery.tsx:165-212 | after the gallery's first page with a cursor, the token cookie lapsing (set for one hour at src/App.tsx:19) makes the next load-more fail with "An unexpected error occurred", keeping the loaded items and paging and ending the pending load-more |

## Left out

- JSX, styling, animations and layout. This includes the modal's layout, video versus image
  rendering and the `src` fallback to the thumbnail, which are presentation only.
- Date formatting with `toLocaleDateString` / `toLocaleString`: it depends on the locale.
- The remote endpoints, request headers, URLs and the field-selection string. A request is
  only its outcome, given as a parameter.
- The race between an initial load and a load-more: each `loadMedia` call is one atomic
  step. For the same reason, the moment during an initial load when `loading` is true
  again is not a state of the model.
- The session-expiry alert and the redirect to `/login` when it closes, the
  `history.replaceState` that cleans the URL, and the browser's own expiry of cookies. The
  jar records each cookie's lifetime but no clock removes cookies.
- The detail page's mock data effect (`useParams`, mock media and mock comments): it loads
  fixed demonstration data and no other logic.
- `src/components/Login.tsx`, `src/pages/Login.tsx`, `src/pages/Dashboard.tsx`,
  `src/components/MediaCard.tsx` and `src/components/Navbar.tsx` are not part of this model.
  They build an authorisation URL, hold mock data, redirect, log out or track scrolling.
  `src/types/*.ts` are data shapes and appear here as datatypes.
- `MediaGallery.Gallery.LoadMedia`: the server's `error` field is taken to be a string when
  present. A non-string JSON value in that field is not modelled, and neither is a feed body
  without `data` or `paging`, a shape the code does not check for.
- `Profile.ProfilePage.FetchProfileData`: the response body is either a profile or absent.
  A body of another shape is not modelled.
- `JsValues.StringToNumber`: numerals with a fraction, an exponent, a hex, octal or binary
  prefix, or `Infinity` read as NaN here, although JavaScript reads them as numbers.
  Timestamps in milliseconds are integers, so this affects only `login_time` values that
  no timestamp would produce.
- `MediaGallery.TruncateCaption`: lengths count Unicode scalar values, while JavaScript
  counts UTF-16 code units. A caption with characters outside the Basic Multilingual Plane
  can be cut at a different place, and `substring` can split a surrogate pair.

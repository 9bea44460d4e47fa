# Kelog front end: a verified model of its logic

Kelog is a Next.js blog front end. Most of it is markup, styling and
network plumbing. This project models the deterministic logic inside it,
in Dafny, and proves what that logic guarantees:

- **The API client** (`lib/api.ts`).
  - The access-token store: an in-memory cache in front of the browser's
    key/value store, which exists only when a `window` does. `setAccessToken`,
    `getAccessToken` and `logout` act on it. It is modelled as the class
    `ApiClient`, with the value-level functions `AfterSet`, `ReadToken`,
    `AfterRead` and `AfterLogout` as its specification.
  - The request every call sends: the URL and the merged headers.
  - The error a failed response raises.
  - The token side effects of `login`, `register` and `refresh`.
  - The path, query and method of every endpoint.
  - The network is a parameter: a function from the request that would be
    sent to the outcome of the call.
- **The post editor** (`app/write/page.tsx`).
  - Adding and removing tags.
  - The publish guard and its flags.
  - The two markdown splices of the toolbar, which produce the new content
    and the new selection.
- **The post card** (`lib/types.ts`, `components/PostCard.tsx`).
  - The post → card transform.
  - The Korean date rendering.
  - What a card shows and where its links lead.
- **The category sidebars** (`components/Sidebar.tsx`,
  `components/MobileSidebar.tsx`).
  - The partition by type and the post total.
  - The selection highlight.
  - The panel and section flags.
- **The login page** (`app/login/page.tsx`).
  - The password-confirmation guard.
  - The requests sent.
  - The error and loading transitions.
  - The mode switch and the single-field form edits.
- **Route hiding** (`components/ConditionalHeader.tsx`,
  `components/ConditionalMobileSidebar.tsx`): the prefix rule that hides
  the header and the mobile sidebar.

State that the source changes in place is a class with fields and
`modifies` clauses. That covers the token store, the editor, the login
page and the sidebar flags. Each asynchronous handler is split at its
`await` into two methods:
- one for what runs before the call, which returns the request;
- one for what runs when the call settles, which takes the outcome as a
  parameter.

Pure code is modelled as functions. Files:
- `wrappers.dfy`: Option and Result.
- `text.dfy`: the JavaScript string behaviours relied on. These are
  truthiness, `trim`, `slice`, `startsWith` and the decimal rendering of
  numbers, with a decimal parser as the rendering's partner.
- `types.dfy`, `api.dfy`, `write_page.dfy`, `login_page.dfy`,
  `post_card.dfy`, `categories.dfy`, `sidebar.dfy`, `mobile_sidebar.dfy`
  and `conditional.dfy`: one per part above.

Where the code and its documented intent differ, the model follows the
code:
- The "all posts" entry of the sidebar is highlighted when
  `selectedCategory` is falsy. That includes the empty string, not only an
  absent value.
- `fetchApi` spreads the caller's headers over the JSON content type. A
  caller can therefore replace `Content-Type`. Without a token, a caller
  can also send its own `Authorization`. No endpoint of the client passes
  headers.
- `logout` removes a `refreshToken` key that nothing in the client ever
  writes. `refresh` returns the new tokens and stores neither.

## Model

| member | source | states |
|---|---|---|
| Text.Trim | app/write/page.tsx:21-23 | `trim()` is a contiguous part of the input with only whitespace before and after it (`InnerSpan`); it is empty exactly for blank input, and otherwise starts and ends with non-whitespace |
| Text.TrimSpanAt | app/write/page.tsx:21 | the two strips cut a blank prefix and a blank suffix and keep what lies between |
| Text.TrimStart | app/write/page.tsx:21 | the leading-whitespace strip yields a suffix whose removed part is all whitespace and whose first character is not |
| Text.TrimEnd | app/write/page.tsx:21 | the trailing-whitespace strip yields a prefix whose removed part is all whitespace and whose last character is not |
| Text.TrimIdempotent | app/write/page.tsx:23 | trimming a trimmed tag changes nothing |
| Text.TrimStartOfBlank | app/write/page.tsx:35-42 | a string is blank exactly when stripping its leading whitespace leaves nothing |
| Text.TrimEndKeepsHead | app/write/page.tsx:21 | stripping trailing whitespace keeps a non-whitespace first character |
| Text.Slice | app/write/page.tsx:310 | `slice(from, to)` is the substring for in-range indices, runs to the end when `to` is past it, and is empty for an empty range |
| Text.SliceFrom | app/write/page.tsx:310 | `slice(from)` is the suffix for an in-range index and empty past the end |
| Text.NatToDecimal | lib/types.ts:176 | `toString()` of a non-negative integer is a canonical numeral (digits, no leading zero), "0" exactly for zero |
| Text.IntToDecimal | lib/types.ts:198 | a year prints with a leading minus exactly when negative |
| Text.ParseNatToDecimal | lib/types.ts:176 | parsing the printed numeral gives the number back |
| Text.NatToDecimalOfParse | lib/types.ts:176 | printing the value of a canonical numeral gives the numeral back |
| Text.NatToDecimalInjective | lib/types.ts:176 | different numbers print differently |
| Text.NatToDecimalFollowedBy | lib/types.ts:198 | a numeral followed by non-digit text splits back into the number and the text in one way only |
| Text.IntToDecimalFollowedBy | lib/types.ts:198 | the same unique split for a signed numeral |
| Text.DigitsRunOn | lib/types.ts:198 | text that continues a shorter prefix of a digit run starts with a digit |
| Types.FormatDate | lib/types.ts:193-199 | the text starts with the year followed by "년 " and ends with "일"; an invalid date prints "NaN년 NaN월 NaN일" (FormatDateInjective shows the text identifies the date) |
| Types.FormatDateExample | lib/types.ts:193-199 | 15 January 2024 prints as "2024년 1월 15일": one-based month, no zero padding |
| Types.FormatDateInjective | lib/types.ts:193-199 | the formatted date identifies the date; no valid date prints like an invalid one ("NaN년 NaN월 NaN일") |
| Types.LocalDatesInjective | lib/types.ts:198 | two valid dates that print alike have equal year, month and day |
| Types.FormatDateStart | lib/types.ts:198 | a valid date's text starts with a digit or a minus sign, never with "N" |
| Types.ToPostCardData | lib/types.ts:174-190 | the card id is the canonical decimal of the post id and parses back to it; title, tags and thumbnail are copied; likes and comments are the like and comment counts; the description is the post's, or "" when it is absent or empty; the author has exactly name, avatar and username; `createdAt` is the formatted date |
| Types.CardIdsDistinguishPosts | lib/types.ts:176 | posts with equal card ids have equal ids |
| PostCard.VisibleTags | components/PostCard.tsx:40 | the shown tags are a prefix of the tags, of length min(count, 3) |
| PostCard.AvatarOf | components/PostCard.tsx:68-79 | the image is used exactly when the avatar is non-empty; otherwise the first character of the name, or nothing for an empty name |
| PostCard.Render | components/PostCard.tsx:13-90 | the thumbnail block appears exactly when the thumbnail is non-empty and links to `/post/{id}`; the title links there too; the tag block appears exactly when there are tags and holds the first ≤3 in order, each linking to `/tags/{tag}`; the stats read `{comments}개의 댓글`; the author links to `/user/{username}`; the like count is shown |
| PostCard.PostLinksDistinguishPosts | components/PostCard.tsx:28 | cards with the same title link have the same post id |
| ConditionalChrome.HidesChrome | components/ConditionalHeader.tsx:10 | only a known path starting with "/" and at least six characters long is hidden, and "/write" and "/login" themselves are |
| ConditionalChrome.RendersHeader | components/ConditionalHeader.tsx:10-14 | the header is rendered for a null pathname, and for a path exactly when it starts with neither "/write" nor "/login" |
| ConditionalChrome.RendersMobileSidebar | components/ConditionalMobileSidebar.tsx:10-14 | the same rule for the mobile sidebar |
| ConditionalChrome.RouteSegmentsAreHidden | components/ConditionalHeader.tsx:10-11 | every path equal to or below "/write" or "/login" hides both components |
| ConditionalChrome.RawPrefixHidesMore | components/ConditionalMobileSidebar.tsx:10 | the test is a raw prefix: "/writer", "/loginx" and "/login/x" are hidden too, though the first two are not on those routes |
| ConditionalChrome.HeaderAndMobileSidebarAgree | components/ConditionalHeader.tsx:10 | the two components are shown on exactly the same pathnames |
| Categories.OfKind | components/Sidebar.tsx:41-42 | a section holds exactly the categories of its type, and no more entries than the list |
| Categories.OfKindAppend | components/Sidebar.tsx:41-42 | filtering distributes over concatenation, so a section keeps the list's order |
| Categories.Total | components/Sidebar.tsx:58 | the reduce-sum of a one-category list is its count, and non-negative counts give a non-negative total (TotalAppend and TotalByKind relate it to the sections) |
| Categories.TotalAppend | components/Sidebar.tsx:58 | the total of a concatenation is the sum of the totals |
| Categories.OfKindSnoc | components/Sidebar.tsx:58 | one more category adds its count to its own section's total and to no other |
| Categories.TotalByKind | components/Sidebar.tsx:11-58 | the total is the sum over the technical, work and custom sections: custom categories are in no section but are counted |
| Categories.OfKindAll | components/Sidebar.tsx:41 | a list of one type filters to itself |
| Categories.OfKindNone | components/Sidebar.tsx:42 | a list with none of a type filters to nothing |
| Categories.TwoRuns | components/Sidebar.tsx:15-30 | a run of one type followed by a run of another splits back into the two runs |
| Categories.DefaultSections | components/Sidebar.tsx:15-42 | the default list's technical section is its first eight entries, its work section the last four, and it has no custom entries |
| Categories.DefaultTechTotal | components/Sidebar.tsx:17-24 | the default technical counts sum to 59 |
| Categories.DefaultWorkTotal | components/Sidebar.tsx:26-29 | the default work counts sum to 54 |
| Categories.DefaultTotals | components/Sidebar.tsx:15-58 | with the default list: technical 59, work 54, total 113 |
| Sidebar.Items | components/Sidebar.tsx:80-85 | one entry per section category, in order, linking to `/category/{id}`, selected exactly when its id is the selected category, with its icon shown exactly when non-empty |
| Sidebar.View | components/Sidebar.tsx:47-118 | "all posts" is highlighted exactly when the selected category is falsy; its count is the total of all categories; each section's entries are shown exactly when its flag is set, and they are the section's items |
| Sidebar.SelectionIsExclusive | components/Sidebar.tsx:84 | with distinct ids at most one entry of a section is selected, and a selected entry with a non-empty id means "all posts" is not highlighted |
| Sidebar.Sidebar.constructor | components/Sidebar.tsx:37-39 | the list defaults to the default categories; both sections start open |
| Sidebar.Sidebar.ToggleTech | components/Sidebar.tsx:65 | flips the technical section's flag and nothing else |
| Sidebar.Sidebar.ToggleWork | components/Sidebar.tsx:94 | flips the work section's flag and nothing else |
| MobileSidebar.Links | components/MobileSidebar.tsx:99-113 | one link per section category, in order, to `/category/{id}`, with its icon shown exactly when non-empty |
| MobileSidebar.View | components/MobileSidebar.tsx:45-79 | the overlay and the panel are shown exactly when open; the total is 113; each section's links are rendered exactly while its flag is set and are the default technical or work categories |
| MobileSidebar.MobileSidebar.constructor | components/MobileSidebar.tsx:24-26 | starts closed with both sections open |
| MobileSidebar.MobileSidebar.Open | components/MobileSidebar.tsx:35 | the floating button opens the panel |
| MobileSidebar.MobileSidebar.Close | components/MobileSidebar.tsx:48 | the overlay, the close button and every link close the panel |
| MobileSidebar.MobileSidebar.ToggleTech | components/MobileSidebar.tsx:86 | flips the technical section's flag and nothing else |
| MobileSidebar.MobileSidebar.ToggleWork | components/MobileSidebar.tsx:122 | flips the work section's flag and nothing else |
| Api.BaseUrl | lib/api.ts:15 | the configured URL when non-empty, else `http://localhost:8080` |
| Api.Lookup | lib/api.ts:34 | `getItem` is null exactly for a missing key and otherwise the stored value |
| Api.AfterSet | lib/api.ts:20-29 | the cache becomes the token; in a browser the "accessToken" key is present exactly when the token is non-empty and then holds it; no other key changes; without a window the store is untouched |
| Api.ReadToken | lib/api.ts:31-37 | a non-empty cached token is returned as is; otherwise in a browser the stored "accessToken" (null if missing); otherwise the cache |
| Api.AfterRead | lib/api.ts:31-37 | the read caches what it returns, never writes the store, and changes nothing when the cache is non-empty |
| Api.AfterLogout | lib/api.ts:102-107 | the cache is null; in a browser both "accessToken" and "refreshToken" are gone and every other key is unchanged; without a window the store is untouched |
| Api.SetThenRead | lib/api.ts:20-37 | after setting a non-empty token the read returns it and changes nothing |
| Api.TokenSurvivesReload | lib/api.ts:20-37 | in a browser a set token is read back after the cache is lost, and a cleared one reads as null |
| Api.LogoutThenRead | lib/api.ts:102-107 | after logout the token reads as null, also after a reload |
| Api.ReadIsStable | lib/api.ts:31-37 | a second read returns the same token and leaves the same state |
| Api.RequestHeaders | lib/api.ts:46-53 | with a non-empty token `Authorization: Bearer {token}` overrides any caller value; without one the caller's is kept; `Content-Type` is the caller's or else `application/json`; every other caller header is kept and nothing else is added |
| Api.MakeRequest | lib/api.ts:55-59 | the URL is base + endpoint; method and body are the caller's; credentials are included; the headers are the merged ones |
| Api.ErrorMessage | lib/api.ts:61-66 | never empty: the body's non-empty message, else `HTTP {status}` for a JSON body, else the generic message for an unparsable one |
| Api.StatusMessagesDiffer | lib/api.ts:65 | without a server message, different statuses give different errors |
| Api.Settle | lib/api.ts:61-68 | the call succeeds exactly for an ok response, with its body; every failure is an `Error`; a non-ok response's message is non-empty; a rejection passes its message through |
| Api.CaughtMessage | app/write/page.tsx:57 | an `Error` shows its own message; anything else shows the fallback |
| Api.ApiFailuresKeepTheirMessage | app/login/page.tsx:38 | a failure coming from the client always shows its own message, never the page's fallback, and a non-ok response's message is non-empty |
| Api.AfterAuth | lib/api.ts:78-80 | login and register store the returned token exactly when the call succeeded and the token is non-empty; otherwise nothing changes |
| Api.AuthTokenIsUsed | lib/api.ts:44-53 | after a login that issued a token, the next request reads that token and carries it as the bearer |
| Api.ApiPath | lib/api.ts:111-329 | every endpoint path starts with `/api/` |
| Api.Route | lib/api.ts:111-329 | every path is under `/api/`; no call passes headers; a GET carries no body; a body is sent only with POST or PUT |
| Api.PageQuery | lib/api.ts:114 | the query starts with `page=` |
| Api.PageQuerySeparators | lib/api.ts:114 | the query holds exactly one `&` and two `=`: two parameters, whatever the numbers |
| Api.DefaultPageQuery | lib/api.ts:113-114 | the default page query reads `page=0&size=20` |
| Api.PagedDefaults | lib/api.ts:113-158 | the paged calls default to page 0 and size 20, and trending to the weekly period |
| Api.PageQueryInjective | lib/api.ts:114 | equal page queries have equal page and size |
| Api.PostPagesDiffer | lib/api.ts:113-115 | the post list path determines the page and size |
| Api.LikePathsDistinguishPosts | lib/api.ts:184-195 | like and unlike hit the same path with different methods; different posts have different like paths |
| Api.OnlyKeywordAndTagAreEncoded | lib/api.ts:129-329 | no endpoint other than search and tag depends on the URI encoder: slugs, usernames and ids go in verbatim |
| Api.SearchKeywordIsEncoded | lib/api.ts:145 | the search keyword reaches the path through the encoder |
| Api.TagNameIsEncoded | lib/api.ts:156 | the tag name reaches the path through the encoder |
| Api.UsernamesAreVerbatim | lib/api.ts:201-203 | the profile path ends with the username itself, so different users get different paths |
| Api.UserPostPathsDiffer | lib/api.ts:206-214 | for the same page, different users' post lists are fetched from different paths |
| Api.ApiClient.constructor | lib/api.ts:15-18 | the base URL is fixed at load and the cache starts null |
| Api.ApiClient.SetAccessToken | lib/api.ts:20-29 | the new state is `AfterSet` of the old |
| Api.ApiClient.GetAccessToken | lib/api.ts:31-37 | returns `ReadToken` of the old state and leaves `AfterRead` of it |
| Api.ApiClient.FetchApi | lib/api.ts:40-69 | sends the request built from the token read, settles as `Settle` of the outcome, and only caches the token |
| Api.ApiClient.Login | lib/api.ts:73-82 | posts the form to `/api/auth/login`; the new state is the read followed by `AfterAuth` of the result |
| Api.ApiClient.Register | lib/api.ts:84-93 | posts the request to `/api/auth/register`, with the same token effect |
| Api.ApiClient.Refresh | lib/api.ts:95-100 | posts the refresh token to `/api/auth/refresh`; the stored token is not changed |
| Api.ApiClient.Logout | lib/api.ts:102-107 | the new state is `AfterLogout` of the old |
| Api.ApiClient.Call | lib/api.ts:111-329 | any endpoint call sends `Route`'s path and options through `FetchApi` |
| WritePage.AddTag | app/write/page.tsx:23-25 | the old tags stay a prefix; the new tag is present; at most one tag is added; nothing else appears; a duplicate-free list stays duplicate-free |
| WritePage.AddTagIdempotent | app/write/page.tsx:23 | adding the same tag again changes nothing |
| WritePage.WithoutTag | app/write/page.tsx:31 | the removed tag is gone and every other tag keeps its number of occurrences |
| WritePage.WithoutTagAppend | app/write/page.tsx:31 | removal distributes over concatenation, so the remaining tags keep their order |
| WritePage.WithoutAbsentTag | app/write/page.tsx:31 | removing a tag that is not there changes nothing |
| WritePage.WithoutTagNoDuplicates | app/write/page.tsx:31 | removal keeps a duplicate-free list duplicate-free |
| WritePage.RemoveUndoesAdd | app/write/page.tsx:23-31 | removing a freshly added tag gives the list back |
| WritePage.InsertAt | app/write/page.tsx:308-315 | for a selection within the text: the text before is kept, the markdown follows, then the text after the selection; the length changes by the markdown minus the selection; the cursor lands after the markdown |
| WritePage.InsertUndo | app/write/page.tsx:310 | inserting the replaced text back over the markdown restores the content |
| WritePage.WrappedText | app/write/page.tsx:325 | the selection when non-empty, else "텍스트" |
| WritePage.Wrap | app/write/page.tsx:323-330 | for a selection within the text: the text before and after is kept, the wrapper is on both sides of the wrapped text, and the new selection covers exactly that text |
| WritePage.UnwrapRestores | app/write/page.tsx:326 | dropping the two wrappers from a wrapped non-empty selection gives the content back |
| WritePage.Editor.constructor | app/write/page.tsx:10-18 | empty title, content, tags, input, description and error; public; not submitting; modal closed |
| WritePage.Editor.HandleTagKeyDown | app/write/page.tsx:20-28 | Enter with a non-blank input adds the trimmed input unless present and empties the input; any other key or a blank input changes nothing; tags stay duplicate-free |
| WritePage.Editor.RemoveTag | app/write/page.tsx:30-32 | the tags become `WithoutTag` of the old ones and stay duplicate-free |
| WritePage.Editor.HandlePublish | app/write/page.tsx:34-54 | a blank title stops with "제목을 입력해주세요." before the content is checked; a blank content stops with "내용을 입력해주세요."; neither makes a request; otherwise the error is cleared, submitting starts and the request carries the untrimmed title and content with description, visibility and tags |
| WritePage.Editor.PublishSettled | app/write/page.tsx:55-60 | success navigates to `/post/{id}`; failure shows the caught message or "글 발행에 실패했습니다. 로그인이 필요할 수 있습니다."; submitting ends either way |
| WritePage.Editor.InsertMarkdown | app/write/page.tsx:305-318 | without a textarea nothing changes; otherwise the content and cursor are those of `InsertAt` |
| WritePage.Editor.WrapText | app/write/page.tsx:320-333 | without a textarea nothing changes; otherwise the content and selection are those of `Wrap` |
| LoginPage.WithLoginField | app/login/page.tsx:140-154 | an edit sets its field and keeps the other one |
| LoginPage.WithRegisterField | app/login/page.tsx:181-237 | an edit sets its field and keeps the other four |
| LoginPage.RegisterEditsCommute | app/login/page.tsx:181-237 | edits of different fields commute |
| LoginPage.RegisterRequestOf | app/login/page.tsx:56-61 | the request carries the username, name, email and password as typed in the form |
| LoginPage.ConfirmationIsNotSent | app/login/page.tsx:56-61 | the confirmation field never affects the register request |
| LoginPage.LoginPage.constructor | app/login/page.tsx:10-27 | opens on the login form, not loading, with no error and empty forms |
| LoginPage.LoginPage.HandleLogin | app/login/page.tsx:29-35 | clears the error, starts loading and sends the login form |
| LoginPage.LoginPage.LoginSettled | app/login/page.tsx:35-41 | success goes to "/"; failure shows the caught message or "로그인에 실패했습니다."; loading ends either way |
| LoginPage.LoginPage.HandleRegister | app/login/page.tsx:44-61 | differing passwords show "비밀번호가 일치하지 않습니다." with no request and the loading flag untouched; otherwise the error is cleared, loading starts and the request has username, name, email and password only |
| LoginPage.LoginPage.RegisterSettled | app/login/page.tsx:62-67 | success goes to "/"; failure shows the caught message or "회원가입에 실패했습니다."; loading ends either way |
| LoginPage.LoginPage.ToggleMode | app/login/page.tsx:258-261 | flips the mode and clears the error; both forms are kept |
| LoginPage.LoginPage.EditLogin | app/login/page.tsx:140-154 | the login form becomes `WithLoginField` of the old one |
| LoginPage.LoginPage.EditRegister | app/login/page.tsx:181-237 | the registration form becomes `WithRegisterField` of the old one |

## Left out

- The network is not modelled: `fetch`, `response.json()`, promises, `async`/`await` and `credentials: "include"` (the last is kept as a flag). A call is a function parameter from the request to its outcome: an ok body, a non-ok status with a parsed or unparsable body, or a rejection.
- Handlers do not interleave. Each handler is split at its `await`, and nothing models another event arriving while a call is pending.
- The browser store is a map plus a `hasWindow` flag. Storage exceptions (quota, disabled storage) are not modelled.
- `JSON.stringify` is not modelled: request bodies are kept as structured payloads. The profile update (`Partial<User>`) is kept as its string-valued fields only.
- Api.Route: `encodeURIComponent` is an uninterpreted function parameter, so the model does not know what it escapes.
- Ids, page numbers and sizes are natural numbers. Negative or fractional JavaScript numbers are not modelled.
- Text.NatToDecimal: prints every natural number in full. JavaScript numbers are doubles: integers above 2^53 are not exact, and `toString()` switches to exponent form (`"1e+21"`) from 10^21 on. Types.ToPostCardData, the page queries and the date format inherit this.
- A JSON body that lacks its `data` field, and so throws on `response.data`, is not modelled.
- Types.ToPostCardData: `new Date(...)` and the local time zone are not modelled. A function parameter gives the year, zero-based month and day, or an invalid date.
- Strings are sequences of Unicode code points, while JavaScript indexes UTF-16 code units. Text outside the Basic Multilingual Plane is not modelled with JavaScript's indices. This affects:
  - WritePage.InsertAt and WritePage.Wrap: the selection offsets;
  - PostCard.AvatarOf: `name[0]`;
  - WritePage.Editor.InsertMarkdown: the cursor it returns.
- WritePage.Editor.InsertMarkdown and WritePage.Editor.WrapText: `getElementById`, `focus`, `setTimeout` and `setSelectionRange` are not modelled. They take the textarea's selection as input and return the selection they would set.
- The plain setters of the editor (title, content, description, visibility, publish modal, tag input) are not modelled. Each is a single field assignment.
- Navigation (`router.push`, `Link`), markup, CSS classes, images and icons are not modelled. The methods return the route they navigate to.
- The social-login buttons of the login page are not modelled: they have no handlers.
- Other pages and components are not part of this model: the home page, post, user and category pages, the header and the trending tabs.

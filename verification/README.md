# MarketWise segmentation dashboard: a Dafny model of its decision logic

MarketWise is a customer-segmentation dashboard: a Next.js front end and three
FastAPI services (authentication, segmentation, strategies) around a language
model and an SQLite file. Most of the code is UI or calls to other systems.
This project models the parts that make decisions or transform data, and it
proves what they promise:

- **Route guard** (`RouteGuard`, `src/middleware.ts`). On the paths its matcher
  selects, it sends visitors without a session to `/login` and signed-in
  visitors on `/login` or `/register` to `/dashboard`. API routes, Next.js
  assets and the favicon are not matched and always pass, as do all other
  requests. The model proves the guard never redirects in a loop.
- **Dashboard aggregation** (`DashboardCharts`). It builds the chart
  configuration, bars, scatter points and customer total from the current
  analysis. Without segments it shows the placeholder data.
- **Form actions** (`FormActions`, `src/lib/actions.ts`). The strategies form is
  validated before the generator is called. The segmentation action refuses an
  empty CSV. Both map the outcome to the page's state record.
- **Header** (`AppHeader`). It derives the avatar source, the alt text, the
  fallback initial and the menu label from the signed-in user.
- **Analysis store** (`AnalysisStore`, `common/database.py`). This covers the two
  tables, saving an analysis, reading one back, and the newest-first history
  list with its CSV snippet.
- **Segmentation service** (`SegmentationService`). It maps the generator's and
  the store's outcomes to responses and HTTP errors.
- **Authentication** (`Auth`, `AuthService`, `UserStore`). This covers token
  claims and expiry, the credential check, current-user resolution, and the
  register, login, me and profile endpoints over a user table. The model proves
  that emails stay unique across any sequence of registrations.

Shared pieces are `Entities` (the value objects of `common/models.py` and
`src/types/ai-types.ts`, plus the handler outcome `Handled`), `Text` (JavaScript
`startsWith`, Python's first-line split and slice, decimal numerals), `Seqs` (a first-match lookup) and `Wrappers` (`Option`,
`Result`).

Things outside the program become parameters:
- the language model's output or error;
- bcrypt verification, as a function, and the salted hash, as a value;
- the result of decoding a JWT;
- the clock;
- exceptions raised by the database.

A signed token is represented by the payload it carries.

## Model

| member | source | states |
|---|---|---|
| `RouteGuard.Middleware` | src/middleware.ts:9-31 | A path the matcher does not select always passes. On a selected path, a non-public path without a token redirects to /login, and a public path with a token redirects to /dashboard. Every other request passes. |
| `RouteGuard.MatchedIff` | src/middleware.ts:27-31 | The matcher selects exactly the paths starting with "/" that do not begin with "/api", "/_next/static", "/_next/image" or "/favicon", any character, "ico". |
| `RouteGuard.ApiBypassesGuard` | src/middleware.ts:27-31 | Any path under "/api" passes, with or without a session. |
| `RouteGuard.PublicPathIff` | src/middleware.ts:4-14 | A path is public exactly when it starts with "/login" or "/register", so "/login-x" is public too. |
| `RouteGuard.LoginIsPublic` | src/middleware.ts:4-14 | The login page itself is public. |
| `RouteGuard.DashboardIsNotPublic` | src/middleware.ts:4-14 | The dashboard is not public. |
| `RouteGuard.NoRedirectLoop` | src/middleware.ts:14-31 | When a request is redirected, the same request with the same cookies at the redirect target passes. |
| `RouteGuard.RedirectTargets` | src/middleware.ts:16-22 | The guard only ever redirects to /login or /dashboard. |
| `RouteGuard.TokenContentIgnored` | src/middleware.ts:12-24 | Two requests with the same path agree on the outcome when both carry a token or neither does. The token's content and other cookies never matter. |
| `RouteGuard.EmptyCookieIsNoToken` | src/middleware.ts:12-18 | A session cookie set to "" gives the same outcome as no cookie. |
| `DashboardCharts.ColorIndexInPalette` | src/components/dashboard-charts.tsx:64 | The colour index `(i % 5) + 1` is always between 1 and 5. |
| `DashboardCharts.SegmentColorPeriodic` | src/components/dashboard-charts.tsx:64-65 | Segment colours repeat with period 5. Two positions get the same colour exactly when they are equal mod 5. |
| `DashboardCharts.LastIndex` | src/components/dashboard-charts.tsx:67-70 | For a name that occurs, this is the position of its last occurrence: no later segment has that name. |
| `DashboardCharts.ConfigShape` | src/components/dashboard-charts.tsx:56-70 | The config keys are "size" plus the segment names. Each name's colour is that of its last occurrence. "size" keeps its colourless entry unless a segment is called "size". |
| `DashboardCharts.ScatterBlock` | src/components/dashboard-charts.tsx:81-94 | Segment i's points form one contiguous run, right after the earlier segments' points. The run has max(0, size) points, each tagged with the segment's name and colour. |
| `DashboardCharts.PointsMatchCustomers` | src/components/dashboard-charts.tsx:78-81 | When no size is negative, the number of scatter points equals the customer total. |
| `DashboardCharts.ChartOfIsSegmentChart` | src/components/dashboard-charts.tsx:56-95 | The reference chart `ChartOf` has one bar per segment, in order, with the name and size copied and the fill of its position. Its total is the sum of the sizes. Its scatter list and config are as described in the two rows above. |
| `DashboardCharts.AggregateSegments` | src/components/dashboard-charts.tsx:56-95 | The nested loops build exactly the reference chart `ChartOf` of the segments, so the result has the properties in the row above. |
| `DashboardCharts.DashboardData` | src/components/dashboard-charts.tsx:41-54 | With no analysis or no segments, the placeholder data is returned: total 900 and 900 scatter points. Otherwise the result is the reference chart of the segments. |
| `DashboardCharts.MockBarsFollowPalette` | src/lib/constants.ts:46-51 | The placeholder bars' fills follow the same colour rule as real segments. |
| `FormActions.CheckField` | src/lib/actions.ts:8-11 | A field has no issue exactly when it is text of at least 10 characters. Short text gives exactly the field's own message. A missing or uploaded value gives only the not-a-string issue, never the field's message. |
| `FormActions.ParseStrategies` | src/lib/actions.ts:23-33 | Parsing succeeds exactly when both fields are valid and then yields the two texts. On failure it reports each field's own issues. |
| `FormActions.GetMarketingStrategies` | src/lib/actions.ts:22-43 | An invalid form gives 'Dados do formulário inválidos.', the field errors and no strategies. A valid form passes its two texts to the generator. Its success gives 'success' with the generator's strategies. Its failure gives 'Ocorreu um erro ao gerar as estratégias.' alone. |
| `FormActions.InvalidFormSkipsGenerator` | src/lib/actions.ts:28-33 | With an invalid form, the result is the same whatever the generator does, so the generator is never consulted. |
| `FormActions.ValidFormUsesOnlyItsFields` | src/lib/actions.ts:35-38 | With a valid form, the result depends only on the generator's answer for the two validated fields. The previous state is ignored. |
| `FormActions.FieldErrorsIndependent` | src/lib/actions.ts:23-31 | While the segment-attributes field is invalid, its error list does not change when the campaign-objectives field changes. |
| `FormActions.CampaignErrorsIndependent` | src/lib/actions.ts:23-31 | While the campaign-objectives field is invalid, its error list does not change when the segment-attributes field changes. |
| `FormActions.GetSegmentationInsights` | src/lib/actions.ts:51-68 | An empty CSV is an error with no analysis. Otherwise the result is 'success' with the flow's analysis exactly when the flow succeeds. |
| `FormActions.EmptyDataSkipsFlow` | src/lib/actions.ts:56-58 | With an empty CSV, the result is the same whatever the flow does. |
| `AppHeader.AvatarFallback` | src/components/app-header.tsx:37 | The fallback is the upper-cased first character of a non-empty name. Failing that, it is the first character of a non-empty email. It is "MW" exactly when neither exists. |
| `AppHeader.FallbackShape` | src/components/app-header.tsx:37 | The fallback is a single character or "MW". |
| `AppHeader.DropdownLabel` | src/components/app-header.tsx:43 | The label is the name whenever it is not null, even if empty. Otherwise it is the email, and nothing without a user. |
| `AppHeader.EmptyNameDiffers` | src/components/app-header.tsx:37-43 | With an empty name, the label is "" while the initial comes from the email. |
| `AppHeader.AvatarSrc` | src/components/app-header.tsx:33 | The source is the avatar URL when set. Otherwise it is the picsum URL seeded with the email, or seeded with "undefined" when there is no user. |
| `AppHeader.AvatarAlt` | src/components/app-header.tsx:34 | The alt text is the name when it is not null, otherwise "Avatar". |
| `Text.TakeUntil` | python-backend/common/database.py:121 | The result is a prefix of the text with no newline. It stops at the first newline or at the end. |
| `Text.TakeUntilUnique` | python-backend/common/database.py:121 | Any prefix with those properties is the first line. |
| `Text.Take` | python-backend/common/database.py:121 | The Python slice `[:n]` is a prefix of length min(n, len). |
| `AnalysisStore.Snippet` | python-backend/common/database.py:121 | The snippet has no newline, ends in '...' and is at most 53 long. Its body is a prefix of the CSV that stops only at 50 characters, a newline or the end. A null CSV gives exactly '...'. |
| `AnalysisStore.SnippetUnique` | python-backend/common/database.py:121 | Those properties determine the snippet completely. |
| `AnalysisStore.EmptyIsValid` | python-backend/common/database.py:36-61 | A fresh database satisfies the store invariant. |
| `AnalysisStore.SegmentsOf` | python-backend/common/database.py:147-152 | A segment is read for an id exactly when some segment row tagged with that id holds it. There are no more segments than rows. |
| `AnalysisStore.SegmentsOfCount` | python-backend/common/database.py:147-152 | One segment is read per matching row: each segment occurs as many times as rows tagged with the id hold it. |
| `AnalysisStore.GetAnalysisById` | python-backend/common/database.py:130-156 | The result is None exactly for an id with no analyses row. Otherwise it is that row's insights, and a segment appears in it exactly when a row stored under the id holds it. |
| `AnalysisStore.GetAnalysisByIdCount` | python-backend/common/database.py:130-156 | For a stored id, the analysis read back has each segment as many times as segment rows under that id hold it. |
| `AnalysisStore.SortNewestFirst` | python-backend/common/database.py:116 | The result is ordered by non-increasing timestamp and is a permutation of its input. |
| `AnalysisStore.GetAllAnalyses` | python-backend/common/database.py:111-128 | There is one metadata entry per stored analysis, with id, timestamp, cluster count and snippet taken from its row. The list is newest first. |
| `AnalysisStore.SaveAnalysis` | python-backend/common/database.py:65-109 | A save appends one analyses row under the next id with the input's CSV, treatment and cluster count. It appends one segment row per output segment, tagged with that id. Earlier rows are kept. |
| `AnalysisStore.SaveKeepsValid` | python-backend/common/database.py:74-105 | The new id was unused. After a save, ids still increase and every segment row still refers to a stored analysis. |
| `AnalysisStore.SaveThenGet` | python-backend/common/database.py:74-156 | After a save, reading the new id gives the saved insights and the same segments as a multiset. |
| `AnalysisStore.SaveFrame` | python-backend/common/database.py:88-105 | A save leaves every other id's insights and segments unchanged. |
| `AnalysisStore.SaveThenList` | python-backend/common/database.py:74-127 | After a save, the history list has an entry for the new id with the saved cluster count and the CSV's snippet. |
| `SegmentationService.SegmentationInsights` | python-backend/segmentation_service/main.py:42-67 | A successful generation returns its output even when the save fails. The store changes only when both steps succeed. A ValueError is a 500 with its message. Any other failure is a 500 with the 'Erro ao processar a solicitação: ' prefix. |
| `SegmentationService.SaveFaultInvisible` | python-backend/segmentation_service/main.py:52-60 | The response is the same whether or not the save fails. |
| `SegmentationService.ListAnalyses` | python-backend/segmentation_service/main.py:71-81 | The endpoint returns the store's list. A database failure is a 500 with the 'Erro ao buscar análises: ' prefix. |
| `SegmentationService.GetAnalysis` | python-backend/segmentation_service/main.py:83-97 | A missing id is a 404 'Análise não encontrada', not rewrapped as 500. An existing id returns exactly the stored analysis. Only a database failure is a 500. |
| `SegmentationService.GenerateThenFetch` | python-backend/segmentation_service/main.py:47-92 | After a successful generate-and-save, fetching the new id returns the insights and the same segments as a multiset. |
| `UserStore.CreateUser` | python-backend/auth_service/main.py:49 | The new user gets the next id, the email and the hash, and is appended. |
| `UserStore.UpdateProfile` | python-backend/auth_service/main.py:87 | Only rows with the given id change, and the fields given replace the old ones. The result is None exactly when no user has that id. |
| `UserStore.UpdateKeepsValid` | python-backend/auth_service/main.py:87 | A profile update keeps ids and emails, so the user table stays valid. |
| `UserStore.FindStoredById` | python-backend/common/auth.py:67 | With distinct ids, looking up a stored user's id finds that user. |
| `Auth.Expiry` | python-backend/common/auth.py:21-37 | The expiry is now + delta for a non-zero delta. For a missing or zero delta it is now + 10080 minutes. |
| `Auth.CreateAccessToken` | python-backend/common/auth.py:32-40 | The payload is the caller's claims plus 'exp', with every other claim unchanged. |
| `Auth.ZeroDeltaUsesDefault` | python-backend/common/auth.py:34-37 | A zero lifetime gives the same token as no lifetime. |
| `Auth.AuthenticateUser` | python-backend/common/auth.py:42-48 | An unknown email gives None. Otherwise the stored user is returned exactly when the password verifies against its hash. |
| `Auth.GetCurrentUser` | python-backend/common/auth.py:50-72 | A failed decode, a missing or null user_id, or an id no user has gives 401 with the Bearer challenge. A user_id that is text other than a decimal numeral fails validation, which nothing catches: a bare 500. A number, or a decimal numeral read as its value, resolves to the stored user with that id. |
| `Auth.DecimalTextIdResolves` | python-backend/common/auth.py:58-67 | A user_id written as the decimal text of a stored user's id resolves to that user, as the number would. |
| `Text.DecimalRoundTrip` | python-backend/common/auth.py:58-62 | Reading back the decimal numeral of a number gives that number. |
| `Auth.IssuedTokenResolves` | python-backend/common/auth.py:50-72 | A token issued with a stored user's claims resolves back to that user. |
| `AuthService.RegisterUser` | python-backend/auth_service/main.py:37-53 | A taken email gives 400 'Email já registrado' and creates no user. Otherwise the user is created, and the reply is a bearer token with sub = email and user_id = new id. |
| `AuthService.RegisterKeepsValid` | python-backend/auth_service/main.py:42-49 | A registration keeps ids increasing and emails unique. |
| `AuthService.RegisterAllKeepsEmailsUnique` | python-backend/auth_service/main.py:42-49 | After any sequence of registrations, no two users share an email. |
| `AuthService.RegisteredTokenResolves` | python-backend/auth_service/main.py:49-53 | The token a registration returns resolves to the newly created user. |
| `AuthService.LoginForAccessToken` | python-backend/auth_service/main.py:55-70 | Failed authentication gives 401 'Email ou senha incorretos' with `WWW-Authenticate: Bearer`. Success gives a bearer token for that user's email and id. |
| `AuthService.LoginTokenResolves` | python-backend/auth_service/main.py:60-70 | The token a login returns resolves to the authenticated user. |
| `AuthService.ReadUsersMe` | python-backend/auth_service/main.py:72-77 | The endpoint returns the public view of the current user, or the resolution error. |
| `AuthService.UpdateUserProfile` | python-backend/auth_service/main.py:79-90 | The update targets the current user's id. A missing user gives 404 'Usuário não encontrado'. Success returns the updated user with that id. |
| `AuthService.UpdateProfileEndpoint` | python-backend/auth_service/main.py:79-90 | A failure to resolve the user is the response, and the store is untouched. Otherwise the handler runs for the resolved user. |
| `AuthService.ProfileUpdateTargetsCurrentUser` | python-backend/auth_service/main.py:87-90 | With requests handled one at a time, a resolved user's update never answers 404. It changes no other user's row and keeps the table valid. |

## Left out

- Language-model generation (`common/ai_service.py`, `python-backend/main.py`, `src/ai/flows/*`, `src/ai/dev.ts`): these are foreign, nondeterministic calls. Their outcome is a parameter: an output or an error.
- bcrypt and JWT: no cryptography is modelled. Verification is a function parameter, the hash is a given value, a token is its payload, and decoding is an `Option` parameter. Signature and expiry checks happen inside that decode.
- SQLite: connections, AUTOINCREMENT and CURRENT_TIMESTAMP are abstracted as rows in id order, a counter and a `now` parameter. In the segmentation service, database exceptions are fault parameters, and a failed transaction leaves the store unchanged. The authentication endpoints' database calls are modelled as never raising.
- `common/database.py` does not define the user-table functions `get_user_by_email`, `get_user_by_id`, `create_user` and `update_user_profile` that the authentication code calls, and `common/models.py` does not define `User`, `UserCreate`, `Token`, `UserProfileUpdate`, `TokenData` or `AnalysisMetadata`. `UserStore` and `Entities` give them the meaning their callers rely on. A profile update keeps fields it is not given. `UserCreate` is modelled with only email and password.
- `TokenData`'s `user_id` is taken to be the optional integer that auth.py:58 annotates, validated in lax mode: a number is kept, and text of decimal digits is read as its value. Other text fails validation. Nothing catches that error, so the result is a plain 500.
- Auth.GetCurrentUser: of the texts lax integer validation accepts, only plain digit strings are read as numbers. Text with a sign, surrounding whitespace or underscores is treated as failing validation, and so is a claim that is a float or a boolean, which the claim type does not represent.
- RouteGuard.Middleware: the matcher is modelled as the regular expression on the pathname alone. Next.js's base path, locale prefixes and prefetch or data requests are not modelled.
- DashboardCharts.ConfigShape: the chart config is a plain JavaScript object, modelled as a map. Assigning to a segment named "__proto__" sets the object's prototype instead of adding a key, so for that one name the lemma's "every name becomes a key" does not hold. The same applies to `IsSegmentChart`, `ChartOf` and `AggregateSegments`.
- `getMe` and `logout`, used by the front end, are not part of this model.
- Chart rendering is out, and so are the random scatter coordinates and the floating-point axis padding and clamping (dashboard-charts.tsx:82-87, 97-108): they are randomness and floats. A scatter point keeps only its cluster and colour.
- The React context holders, icons, page components and the strategy service are UI or forwarding code. They are out.
- The sidebar's active-link test is the same `startsWith` as the route guard (`Text.StartsWith`). It has no member of its own.
- FastAPI/CORS setup, startup hooks, environment loading, logging and the root endpoints are plumbing. They are out.
- Concurrency: every handler runs to completion before the next starts. Email uniqueness relies on this, since concurrent registrations could both pass the check.
- AppHeader.AvatarFallback: upper-casing covers only ASCII letters, and a character is a Unicode scalar. JavaScript's `toUpperCase` maps all of Unicode and may lengthen a string. Its `charAt` works on UTF-16 code units.
- AppHeader.FallbackShape: "one character or MW" holds for the ASCII-only upper-casing modelled here. JavaScript's `toUpperCase` can lengthen a character ('ß' becomes "SS"), so the real fallback can be two characters long.
- FormActions.CheckField: the non-string issue is an abstract `NotAString`, without zod's wording. Lengths count characters, not UTF-16 units.
- AnalysisStore.GetAnalysisById: the segments come back in row order, one of the orders the query may use. The round-trip lemmas promise only the multiset.
- AnalysisStore.GetAllAnalyses: timestamps are whole seconds. Entries with equal timestamps come in one fixed order, while SQLite may use any.
- Auth.Expiry: a `timedelta` is a whole number of seconds, which may be negative (and is then still truthy).
- Segment sizes are unbounded integers. JavaScript numbers are exact only up to 2^53, which sizes here never reach.

# AI Video Studio: a Dafny model of its record-keeping and page logic

AI Video Studio is a small web application. Its server keeps four MySQL tables (videos, icons, users, analytics) behind a REST API. Its page lets a user:
- generate a video from a prompt and watch its status;
- customise and save an icon;
- switch between a light and a dark theme;
- go through a four-step onboarding wizard.

An analytics script in the page records what the user does.

This project models, and proves properties of:

- **The four controllers** (`server/controllers/*.js`).
  - Each table is a class holding:
    - its rows as a `map` from id to row;
    - the next AUTO_INCREMENT id;
    - the database clock that stamps `created_at`.
  - Every INSERT, UPDATE and DELETE handler is a method on that class.
  - Every SELECT is a function over the rows.
  - Shared contract of the handlers:
    - Create returns a fresh id.
    - Update and delete answer not-found exactly when no row has the id. mysql2 reports matched rows as affected rows.
    - A listing holds exactly the rows of its owner, each once, newest first.
  - Video generation is modelled as its explicit steps:
    - first `processing`;
    - then `completed` with the URL `/videos/<id>_generated.mp4` and a duration of 30;
    - or `failed`.
  - The outcome of the external completion service is a boolean input.
  - The analytics summary is computed as a tally followed by a sort by count. It is proved to have one group per event type, each counting that type's rows, in non-increasing count order, with counts summing to the number of rows.
- **The analytics recorder** (`public/js/analytics.js`). It is a class with:
  - the in-memory event list;
  - the session id;
  - the scroll listener's high-water mark;
  - the `analytics_events` local storage entry;
  - the list of bodies posted to the analytics endpoint.

  Its proofs cover:
  - From a backup of at most 100 events, storing keeps exactly the 100 most recent events, in order.
  - The reported scroll depths are increasing multiples of 25.
  - The posted `event_data` is the caller's data with `session_id` forced to the session.
- **The page** (`public/js/app.js`). It is a class holding the values its handlers write:
  - the body class and the theme icon;
  - the two local storage flags;
  - the wizard's step, panel, dots and buttons;
  - the analytics bodies it posts.

  The icon class string, the size table and the video status polling rule are functions. The polling rule is connected to the video lifecycle above.

JavaScript details are modelled explicitly:
- A request field is absent, `null`, or a value (`Base.Input`).
- `??` keeps `0` and `""`.
- `||` treats `0`, `""`, `null` and `undefined` alike.
- A default parameter replaces `undefined` only.

Two facts about the page, as written:
- `public/js/app.js:383` declares its own `trackEvent`, and `public/js/analytics.js:140` assigns `window.trackEvent` too. The page markup that orders the two scripts is not part of this model. The model assumes `app.js` loads after `analytics.js`. Its top-level declaration then replaces the recorder's function, and the page's events go out with `user_id` 1. In the other order they would go through the recorder's `track` instead.
- `currentUserId` is declared with `let` at `public/js/app.js:5`, so it is not a property of `window`. The recorder's `window.currentUserId || null` is therefore `null` in this page. The model takes that value as an input.

## Model

| member | source | states |
|---|---|---|
| Base.Nullish | server/controllers/analyticsController.js:9 | `x ?? null`: NULL exactly for undefined and null, otherwise the value itself (0 and "" kept) |
| Base.OrElse | server/controllers/iconController.js:9 | `x \|\| fallback` on strings: the value when it is a non-empty string, the fallback for undefined, null and "" |
| Base.NumberOrNull | public/js/analytics.js:87 | `x \|\| null` on numbers: null exactly when absent, null or 0 |
| Table.Find | server/controllers/videoController.js:85-89 | the get-by-id query of every table (also `iconController.js:29-33`, `userController.js:25-29`): the stored row when the id is present, not-found otherwise |
| Table.Select | server/controllers/userController.js:68 | a filtered listing holds exactly the rows satisfying the filter, each once, with non-increasing `created_at` |
| Table.ListOwned | server/controllers/videoController.js:98-102 | the per-user listing of every table that has one (also `iconController.js:42-46`, `analyticsController.js:23-27`, where a NULL owner matches no user): exactly the rows of that user, each once, with non-increasing `created_at` |
| Table.InsertedListedFirst | server/controllers/videoController.js:12-15 | a row inserted with a stamp later than every stored one is listed first by any listing that keeps it (also `iconController.js:7-10`, `userController.js:7-10`) |
| Table.LatestListedFirst | server/controllers/videoController.js:98-102 | a kept row stamped later than every other row is listed first |
| Videos.VideoUrl | server/controllers/videoController.js:64 | the URL starts with `/videos/` and ends with `_generated.mp4` around the decimal id |
| Videos.VideoUrlInjective | server/controllers/videoController.js:64 | different ids get different URLs |
| Videos.Generated | server/controllers/videoController.js:41-78 | after generation the status is terminal; it is completed iff the service succeeded; on success the URL is the id's URL and the duration is 30; on failure URL and duration are unchanged; owner, title, prompt and stamp are unchanged |
| Videos.GenerationLifecycle | server/controllers/videoController.js:12-78 | a new pending record steps pending → processing → completed/failed, and has a URL and a duration exactly when it completed |
| Videos.VideoTable.CreateVideo | server/controllers/videoController.js:12-31 | inserts a pending row under a fresh id; returns that id, the fields and `pending`; the table stays valid |
| Videos.VideoTable.SubmitVideo | server/controllers/videoController.js:9-35 | every submission inserts a pending row under a fresh id, answers with it as `pending`, and starts generation for that id; the row ends completed (with URL and duration) exactly when the service succeeded, otherwise failed, and has a URL and a duration exactly when completed |
| Videos.VideoTable.MarkProcessing | server/controllers/videoController.js:41-44 | only the status of that row becomes `processing`; a missing id changes nothing |
| Videos.VideoTable.MarkCompleted | server/controllers/videoController.js:64-71 | status, URL and duration of that row are written together; nothing else changes |
| Videos.VideoTable.MarkFailed | server/controllers/videoController.js:73-78 | only the status becomes `failed`; URL and duration are not written |
| Videos.VideoTable.GenerateVideo | server/controllers/videoController.js:38-80 | the row becomes `Generated` of its old value; a present row ends with a terminal status; other rows unchanged |
| Videos.VideoTable.UpdateVideo | server/controllers/videoController.js:111-119 | not-found iff the id is absent, with no change; otherwise only title, prompt, status and URL change (owner, duration, stamp kept) |
| Videos.VideoTable.DeleteVideo | server/controllers/videoController.js:128-132 | not-found iff the id is absent; exactly that row is removed |
| Icons.NewIcon | server/controllers/iconController.js:9 | color, size and style default to `#000000`, `medium`, `solid` exactly when the given value is falsy; name and class are stored as given |
| Icons.IconTable.CreateIcon | server/controllers/iconController.js:4-20 | stores the defaulted row under a fresh id; answers with the request fields as submitted, not the defaulted ones |
| Icons.IconTable.UpdateIcon | server/controllers/iconController.js:55-63 | not-found iff absent; the five columns are overwritten as given, without defaults |
| Icons.IconTable.DeleteIcon | server/controllers/iconController.js:72-79 | not-found iff absent; exactly that row is removed |
| Users.AllUsers | server/controllers/userController.js:68-69 | every user, each once, newest first |
| Users.UserTable.CreateUser | server/controllers/userController.js:6-16 | inserts username, email and the column defaults under a fresh id; answers with that id, username and email |
| Users.UserTable.UpdateUser | server/controllers/userController.js:38-46 | not-found iff absent; only that row's four mutable columns change |
| Users.UserTable.DeleteUser | server/controllers/userController.js:55-59 | not-found iff absent; exactly that row is removed |
| AnalyticsLog.RecordedEvent | server/controllers/analyticsController.js:9 | `user_id` is NULL only for null or undefined (0 kept); `event_data` is `{}` when absent or null (however the null is written), otherwise the value sent; a JSON null is never stored |
| AnalyticsLog.AnalyticsTable.TrackEvent | server/controllers/analyticsController.js:7-14 | appends exactly one row under a fresh id and returns the id; every earlier row is unchanged (the API has no update or delete) |
| AnalyticsLog.Summary | server/controllers/analyticsController.js:37 | the GROUP BY query as a tally of the type column sorted by count; its properties are stated by AnalyticsLog.SummaryCorrect and the four lemmas below |
| AnalyticsLog.SummaryCorrect | server/controllers/analyticsController.js:37 | one group per event type present, each counting the rows of its type, in non-increasing count order, with counts summing to the number of rows |
| AnalyticsLog.SummaryOnePerType | server/controllers/analyticsController.js:37 | no event type appears in two groups |
| AnalyticsLog.SummaryTypes | server/controllers/analyticsController.js:37 | the grouped types are exactly the types in the log |
| AnalyticsLog.SummaryCounts | server/controllers/analyticsController.js:37 | each group's count is the number of rows of its type |
| AnalyticsLog.SummaryOrderAndTotal | server/controllers/analyticsController.js:37 | groups ordered by count, descending; counts sum to the number of rows |
| ClientAnalytics.EventData | public/js/analytics.js:60 | the default `{}` replaces undefined only; null and any value are kept |
| ClientAnalytics.MakeEvent | public/js/analytics.js:61-68 | the event holds the given type and data, the session, the moment and user agent, and the screen as the width's digits, `x`, the height's digits |
| ClientAnalytics.ScreenResolutionExact | public/js/analytics.js:67 | the screen string determines width and height: equal strings mean equal sizes |
| ClientAnalytics.BackendPayload | public/js/analytics.js:86-93 | user id `\|\| null`; `event_data` has the caller's keys plus `session_id`, which holds the session and overrides a caller key of that name |
| ClientAnalytics.Pushed | public/js/analytics.js:102-108 | the new event is last; the survivors keep their order, the oldest dropped exactly when the list held 100 or more; at most 100 stays at most 100 |
| ClientAnalytics.StoreSlot | public/js/analytics.js:100-114 | storeLocally's effect on the `analytics_events` entry: a missing entry becomes a one-event list, an unreadable one stays, a list becomes Pushed of it; ClientAnalytics.Pushed and ClientAnalytics.BackupKeepsLatest state what that keeps |
| ClientAnalytics.StoredEvents | public/js/analytics.js:120-126 | the stored list, or empty when the entry is missing or unreadable |
| ClientAnalytics.BackupKeepsLatest | public/js/analytics.js:100-114 | from a backup of at most 100 events, storing events one by one keeps exactly the 100 most recent, in order |
| ClientAnalytics.ScrollMark | public/js/analytics.js:31-32 | the mark never decreases and becomes the reading when the reading is larger |
| ClientAnalytics.FinalMarkBounds | public/js/analytics.js:26-36 | over any run of readings the mark ends at or above its start and every reading |
| ClientAnalytics.MilestonesBounded | public/js/analytics.js:26-36 | every reported depth is a reading above the starting mark, a multiple of 25, and at most the final mark |
| ClientAnalytics.MilestonesIncrease | public/js/analytics.js:26-36 | reported depths strictly increase, so none is reported twice |
| ClientAnalytics.Analytics.constructor | public/js/analytics.js:4-8 | a new recorder holds its session, a zero mark, and exactly one `page_view` event, posted and backed up |
| ClientAnalytics.Analytics.Track | public/js/analytics.js:60-77 | appends one event with the given type, data and the session id; posts its payload; backs it up |
| ClientAnalytics.Analytics.StoreLocally | public/js/analytics.js:100-114 | the backup becomes the pushed list (unchanged when unreadable); at most 100 stays at most 100 |
| ClientAnalytics.Analytics.GetEvents | public/js/analytics.js:116-118 | the in-memory list |
| ClientAnalytics.Analytics.GetStoredEvents | public/js/analytics.js:120-126 | the backup, or empty when missing or unreadable |
| ClientAnalytics.Analytics.ClearStoredEvents | public/js/analytics.js:128-130 | the entry is removed, after which the stored events are empty |
| ClientAnalytics.Analytics.OnScroll | public/js/analytics.js:27-37 | the mark rises to the reading when larger; a `scroll_depth` event is appended, posted and backed up exactly when the mark rose to a multiple of 25; otherwise events, posts and backup are unchanged |
| ClientAnalytics.Analytics.OnUnload | public/js/analytics.js:20-23 | tracks `session_end` with the whole seconds spent: the event is appended, posted and backed up |
| App.SavedTheme | public/js/app.js:12 | the stored theme when non-empty, `light` otherwise |
| App.ThemeIcon | public/js/app.js:17-24 | a sun exactly for the dark theme, a moon otherwise |
| App.Toggled | public/js/app.js:27-28 | light exactly from the dark theme, dark from anything else |
| App.ToggleTwice | public/js/app.js:27-31 | from the light or the dark theme, toggling twice restores it |
| App.Page.Post | public/js/app.js:383-395 | appends one body with user id 1 and the given type and data |
| App.Page.InitTheme | public/js/app.js:11-15 | body class and icon follow the saved theme |
| App.Page.ToggleTheme | public/js/app.js:26-36 | switches the theme, saves it so a reload shows the same theme, updates the icon and reports `theme_changed` |
| App.Page.InitOnboarding | public/js/app.js:46-53 | the wizard is hidden exactly when the stored flag is a non-empty string |
| App.Page.CompleteOnboarding | public/js/app.js:92-96 | hides the wizard, stores `true` so the next load keeps it hidden, reports `onboarding_completed` |
| App.Page.UpdateWizardStep | public/js/app.js:55-72 | shows panel `step`; exactly dot `step - 1` is active; Prev disabled iff step 1; Next says `Get Started` iff step 4 |
| App.Page.Next | public/js/app.js:74-81 | below step 4 moves one step forward and redraws, leaving the wizard flags and posts alone; on step 4 completes onboarding and keeps the step, panel, dots and buttons; the step stays within 1..4 |
| App.Page.Prev | public/js/app.js:83-88 | above step 1 moves one step back and redraws; on step 1 changes nothing; the step stays within 1..4 |
| App.SavedIconName | public/js/app.js:224 | the typed name, or `heart` when empty; never empty |
| App.IconClass | public/js/app.js:238 | the class is `fa-`, the style, ` fa-`, the name, in that order and nothing else |
| App.IconClassRoundTrip | public/js/app.js:238 | the class `fa-<style> fa-<name>` gives back its style and name |
| App.SavedIconStored | public/js/app.js:223-243 | the server stores a saved icon with a non-empty name and the submitted class; an empty style, color or size is replaced by the server default (the class keeps the empty style) |
| App.FontSize | public/js/app.js:202-207 | a font size exactly for small, medium, large and xlarge; the server's default size has one |
| App.NextPoll | public/js/app.js:171-189 | success on `completed`, failure on `failed`, poll again after 5000 ms on any other answer, stop when the request fails |
| App.ReplyFor | public/js/app.js:173-174 | the getVideoById answer (`videoController.js:85-89`) as the page reads it: always a body; it has a status exactly when the video exists, and then it is the stored status's name |
| App.PollingStopsOnTerminal | public/js/app.js:176-185 | polling a stored video stops exactly when its status is terminal |
| App.PollingEndsAfterGeneration | public/js/app.js:176-185 | after generation the next poll reports success or failure as the service did |
| App.DeletedVideoPolledForever | public/js/app.js:182-185 | a video that is not found is polled again, without end |

## Left out

- The text-completion call itself: its prompt and answer, model name and token limit. Only its success or failure is an input. Its answer is discarded by the source anyway.
- Fire-and-forget asynchrony. Videos.VideoTable.SubmitVideo runs the generation task to its end before any other request. Interleavings with other requests, and races between tasks on the same id, are not modelled.
- The SQL engine, the connection pool and every 500 answer.
  - A failing query is not modelled, except the generation failure above.
  - Request fields are taken as given values in the create handlers.
  - A missing field that violates a NOT NULL column gives a 500 that is not modelled.
- The schema file. The user columns' defaults are constructor parameters. `created_at` is a clock advanced by an `elapsed` input at every insert.
- AnalyticsLog.Summary: groups event types by exact string equality, as a binary (case-sensitive) collation of `event_type` would. Under MySQL's default case-insensitive collation, `GROUP BY` would merge types that differ only in case or trailing spaces. Collations are not modelled.
- Table.Select: the database leaves the order of rows with the same `created_at` open. The model lists the larger id first, and the listing contracts promise only a non-increasing `created_at`.
- Videos.VideoTable.UpdateVideo: takes one of the four statuses and given title and prompt. A status string outside the four, or a missing field, is not modelled. The column is an enumeration, so such an UPDATE fails or stores an empty value depending on the SQL mode.
- Routes, middleware, the rate limiter, static serving, database setup and the demo API client are not part of this model. They carry no logic of their own.
- Browser clock and randomness. The timestamp, the session id (made from `Date.now` and `Math.random`), the user agent and the screen size are inputs.
- The floating-point scroll computation. The floored percentage is an input; a zero-height page (NaN, Infinity) is not modelled.
- The click listener: DOM lookup, tag, trimmed text and class of the clicked element.
- JSON serialisation and parsing.
  - Storage is missing, unreadable, or a list of events.
  - A stored value that parses to something other than a list counts as unreadable.
  - ClientAnalytics.Spread: spreading a string or an array into `event_data` would add indexed keys; the model takes any non-object data to add no keys.
- The `setItem` failure (storage quota) inside `storeLocally`.
- ClientAnalytics.Analytics.GetEvents: returns the list by value; the source returns the live array, so a caller could alias and mutate it.
- DOM rendering in the page: panel and dot class lists beyond the active flags, `innerHTML` templates, SVG/PNG export, `alert`, tab switching, the video form, the content lists. The initial markup of the page is not part of this model; the constructor starts from neutral values.
- App.Page.Post: models the page's own `trackEvent` (`public/js/app.js:383-395`). This holds only if `app.js` loads after `analytics.js`. In the other order `window.trackEvent` from `public/js/analytics.js:140` would win, and the page's events would be recorded by ClientAnalytics.Analytics.Track.
- App.Toggled: `classList.contains('dark-theme')` is read as the body class being exactly `dark-theme`, which holds once initTheme has run and the saved theme has no space (the page itself only saves `light` or `dark`).
- App.Page.UpdateWizardStep: requires a step in 1..4 because the markup has those panels only. Any other step would throw at the panel lookup; no handler passes one.
- Network delivery of the posted analytics bodies. The page and the recorder record what they send; whether it arrives is not modelled.

# Civic reporting app: the logic behind its screens

This project models the few pieces of the app's screens that are logic and not
layout, and proves properties of them in Dafny.

- **Feed ranking** (`feed.dfy`, module `Feed`). The feed screen shows a list of
  posts. A tap on a card adds a random whole number from 1 to 20 to that post's
  impressions. The whole list is then sorted again, highest impressions first.
  The screen's state is the class `FeedScreen` with a `posts` sequence. Its
  `Click` method replaces that sequence using the pure updater
  `HandleCardClick`. The random increment is a parameter `inc`, required to lie
  in [1, 20]. JavaScript's `Array.prototype.sort` is stable, so the sort is
  modelled as a stable insertion sort, `Rank`. The model proves that `Rank`'s
  result:
  - is sorted;
  - is a permutation of its input;
  - keeps posts that have equal impressions in their prior order;
  - is the only ordering with all three of these properties.
  Idempotence of ranking follows from the last point.
- **Camera screen** (`camera.dfy`, module `Camera`). This covers:
  - the camera-settings record and its initial value;
  - the generic `toggleProperty` updater and the four buttons bound to it;
  - the clamped zoom buttons;
  - the `allGranted` permission predicate;
  - the guards of taking and saving a picture.
  The state fields are the class `CameraScreen`. Device calls are replaced by
  parameters that carry their results:
  - the permission replies, or `None` when the request threw;
  - whether the camera view is mounted;
  - the captured URI and position fix;
  - whether the media-library save succeeded.
  Alerts and navigation are returned as outcome values.
- **Sign-in and registration forms** (`login.dfy`, `signup.dfy`). Each submit
  handler is a function. It returns either an error alert (stay on the screen)
  or a navigation to a named route. The registration screen's fixed region and
  gender choices are constants.
- `ui.dfy` (module `Ui`) holds the shared outcome types and JavaScript string
  truthiness.

The code has no proximity-based merging of reports, no distance calculation, no
`count` field and no persisted `"posts"` store. A design description of the
app mentions all of these. They do not occur in the screens' code, so they are
not modelled. Where the description and the code disagree, the model follows
the code. One example: the code's feed posts have `id`, `title`, `author`,
`impressions`, `comments` and `likes`, and no location or tags.

## Model

| member | source | states |
|---|---|---|
| `Feed.Bump` | screens/RedditStyleFeed.js:40-47 | the mapped list has the same length; every post keeps its id, title, author, likes and comments; a post with another id is returned unchanged; a post with the tapped id gains exactly `inc` impressions |
| `Feed.BumpOnlyTarget` | screens/RedditStyleFeed.js:40-47 | with distinct ids, the tapped post is the only one of the mapped list that carries the tapped id |
| `Feed.BumpKeepsOthers` | screens/RedditStyleFeed.js:40-47 | a post whose id is not the tapped one occurs in the mapped list exactly as many times as before |
| `Feed.Insert` | screens/RedditStyleFeed.js:50 | inserting into the ranked list adds exactly that post (multiset), one longer |
| `Feed.Rank` | screens/RedditStyleFeed.js:50 | the sorted copy has the same length and the same posts (multiset permutation) |
| `Feed.InsertSorted` | screens/RedditStyleFeed.js:50 | inserting into a list in non-increasing impression order keeps it in that order |
| `Feed.RankSorted` | screens/RedditStyleFeed.js:50 | the sorted copy is in non-increasing order of impressions, as comparator `b.impressions - a.impressions` asks |
| `Feed.InsertTies` | screens/RedditStyleFeed.js:50 | inserting a post puts it ahead of every post with the same impressions and leaves their order alone |
| `Feed.RankStable` | screens/RedditStyleFeed.js:50 | for every impression count, the posts with that count appear in the same relative order before and after sorting (the sort is stable) |
| `Feed.WithImpressionsWitness` | screens/RedditStyleFeed.js:50 | proof helper for `SortedTiesUnique`, about the tie-group function `WithImpressions` rather than behaviour at this line: a non-empty group of posts with count `k` means some post has count `k` |
| `Feed.NotTiedWithEmpty` | screens/RedditStyleFeed.js:50 | proof helper for `SortedTiesUnique`, about `WithImpressions` rather than behaviour at this line: a non-empty list and the empty list differ on the group of the first post's count |
| `Feed.SortedTiesUnique` | screens/RedditStyleFeed.js:50 | two lists that are both sorted and agree on the order of every tie group are equal |
| `Feed.RankIsTheStableSort` | screens/RedditStyleFeed.js:50 | any sorted list that keeps every tie group's order is exactly `Rank(s)`: the stable sort's result is unique |
| `Feed.RankIdempotent` | screens/RedditStyleFeed.js:50 | ranking an already ranked list changes nothing |
| `Feed.InsertDistinct` | screens/RedditStyleFeed.js:50 | inserting a post with a fresh id keeps ids distinct |
| `Feed.RankDistinct` | screens/RedditStyleFeed.js:50 | sorting never duplicates an id |
| `Feed.HandleCardClick` | screens/RedditStyleFeed.js:39-51 | the new list has the old length, is sorted by impressions descending, is a permutation of the mapped list, and keeps ties in the mapped list's order |
| `Feed.ClickedPost` | screens/RedditStyleFeed.js:41-44 | the tapped post is in the new list with all fields kept and impressions exactly old + `inc`, hence strictly larger; no other post carries its id |
| `Feed.ClickKeepsOthers` | screens/RedditStyleFeed.js:40-47 | a post with a different id is in the new list unchanged, with the same multiplicity |
| `Feed.ClickAbsent` | screens/RedditStyleFeed.js:40-50 | tapping an id no post has changes no counter; the result is just the old list ranked |
| `Feed.ClickMonotone` | screens/RedditStyleFeed.js:40-50 | every post after a tap has a predecessor with the same id, likes and comments and no more impressions |
| `Feed.ClickKeepsIdsDistinct` | screens/RedditStyleFeed.js:40-50 | a tap keeps ids distinct |
| `Feed.InitialPostsUnranked` | screens/RedditStyleFeed.js:6-32 | the sample posts have distinct ids and are not in ranked order (499 before 500) |
| `Feed.FirstTapExample` | screens/RedditStyleFeed.js:6-50 | one impression on post "2" ties it with post "3" at 500, and the stable sort keeps "2" first |
| `Feed.FeedScreen.constructor` | screens/RedditStyleFeed.js:35 | the screen starts with the sample posts, ids distinct |
| `Feed.FeedScreen.Click` | screens/RedditStyleFeed.js:38-52 | a tap replaces `posts` by `HandleCardClick(old posts, id, inc)` for an `inc` in [1, 20] and keeps ids distinct |
| `Camera.ToggleProperty` | screens/SuccessScreen.js:61-66 | the named setting becomes option2 when it equals option1 and option1 otherwise; zoom and every other setting are unchanged |
| `Camera.ToggleTwice` | screens/SuccessScreen.js:64 | two presses restore a setting that held one of the two options; from any other value they end on option2 |
| `Camera.ZoomIn` | screens/SuccessScreen.js:68-73 | zoom becomes one step more or 1, whichever is smaller, so it never exceeds 1; nothing else changes |
| `Camera.ZoomOut` | screens/SuccessScreen.js:75-80 | zoom becomes one step less or 0, whichever is larger, so it never drops below 0; nothing else changes |
| `Camera.ZoomStaysInRange` | screens/SuccessScreen.js:61-80 | from a zoom in [0, 1], any sequence of toggles and zoom presses keeps zoom in [0, 1] |
| `Camera.ButtonsKeepWellFormed` | screens/SuccessScreen.js:192-248 | pressing only the screen's own buttons keeps zoom in [0, 1], facing front/back, flash on/off and both switches boolean |
| `Camera.InitialWellFormed` | screens/SuccessScreen.js:15-21 | the initial settings (zoom 0, back, flash on, both switches false) are well formed; zoom out leaves them alone |
| `Camera.AllGranted` | screens/SuccessScreen.js:39-42 | true exactly when the camera reply says granted and the media-library and location statuses are both 'granted' |
| `Camera.CameraScreen.constructor` | screens/SuccessScreen.js:14-24 | no permissions, initial camera settings (well formed), no image, no location |
| `Camera.CameraScreen.RequestPermissions` | screens/SuccessScreen.js:33-59 | the flag becomes `allGranted` of the replies, with the 'Permissions Required' alert when false; a failed request leaves the flag and shows the error alert |
| `Camera.CameraScreen.Press` | screens/SuccessScreen.js:61-80 | a control press applies its updater to the settings and changes nothing else; a press of one of the screen's own buttons keeps the settings well formed |
| `Camera.CameraScreen.TakePicture` | screens/SuccessScreen.js:82-110 | without all permissions nothing is captured and nothing changes; image and location are set only when permissions, the camera view and the device call all succeed |
| `Camera.CameraScreen.SavePicture` | screens/SuccessScreen.js:112-138 | without a (truthy) image nothing happens; a successful save adds the asset to 'GeotaggedPhotos' exactly when a location is known, clears image and location, and returns the 'Photo saved!' alert and, as `next`, the PhotoDisplay navigation its OK button performs with the previous image and location; a failure changes nothing |
| `Login.HandleLogin` | screens/LoginPage.js:18-29 | stays with 'Please fill in all fields' exactly when the email or the password is empty; otherwise navigates to 'Success' |
| `Login.OnlyEmptinessMatters` | screens/LoginPage.js:20 | only emptiness of the two fields decides the outcome |
| `Login.WhitespaceSignsIn` | screens/LoginPage.js:20-28 | whitespace-only fields pass |
| `Signup.PickerValues` | screens/SignupScreen.js:91-107 | a picker offers its empty placeholder first, then each choice, and nothing else |
| `Signup.HandleSignup` | screens/SignupScreen.js:30-40 | stays with 'Passwords do not match!' exactly when the two passwords differ; otherwise shows the welcome notice and navigates to 'LoginPage' |
| `Signup.OnlyPasswordsChecked` | screens/SignupScreen.js:30-40 | forms that agree on the two password fields get the same outcome |
| `Signup.EmptyFormSignsUp` | screens/SignupScreen.js:7-14 | the untouched form, with two empty passwords, signs up |
| `Signup.PickerChoices` | screens/SignupScreen.js:13-28 | nine distinct regions and three distinct genders, both defaulting to the placeholder '' that is neither |

## Left out

- Randomness: `Math.floor(Math.random() * 20) + 1` is the parameter `inc`, constrained to [1, 20].
- Feed.HandleCardClick: applies one increment `inc` to every post with the tapped id, while the source draws a separate random increment for each matching post. `Feed.FeedScreen.Click` requires distinct ids, which the sample posts have and every tap keeps, so at most one post matches there and the single increment is exact.
- Counters are unbounded integers. JavaScript numbers lose integer precision above 2^53; that is not modelled.
- React state scheduling and async sequencing: each handler is one atomic step on the screen's state.
- Camera.ZoomIn and Camera.ZoomOut: the step is the exact real 0.1, not the floating-point one. Only the clamping and the one-step relation are proved, not the floating-point sums.
- The zoom slider, which sets zoom directly to a value in [0, 1], is not modelled.
- Toggle options are limited to strings and booleans. They are the only kinds the screen's buttons pass.
- Device I/O is not modelled:
  - camera capture, media-library asset and album creation, geolocation;
  - fetching the last saved image (`getLastSavedImage`) and the thumbnail's `previousImage`;
  - the "retake" button that clears the image.
  These appear only as parameters or not at all.
- Camera.CameraScreen.SavePicture: returns, as `next`, the PhotoDisplay navigation that the 'Photo saved!' alert's OK button performs, but does not capture that the navigation waits for that press.
- Alerts and navigation are returned values. The callbacks that re-request permissions from the alerts' buttons are not modelled.
- Console logging is not modelled.
- PDF export, map snapshot, file system and sharing (screens/ReportScreen.js) are not modelled. They are external libraries.
- Map rendering and coordinate offsets (screens/MapScreen.js), the logo animation (screens/LogoScreen.js), the route-parameter screens (screens/PhotoDisplayScreen.js, screens/FinalPostScreen.js, screens/FeedScreen.js) and the navigator wiring are not modelled. They are UI plumbing.
- Proximity merging, distance, `count` fields and the persisted post store are not modelled. They do not occur in the code.

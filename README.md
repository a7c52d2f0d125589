# Floor-plan material visualiser: a Dafny model of its core

The application lets a user upload a floor plan and pick material ids from a
catalog. It then asks an external image-generation service for two kinds of
image: a top-down "material overlay" of the plan, and one photorealistic
view per room. The browser polls the service until each image is ready.

This project models the logic that decides what is sent and what is shown:

- `js_text.dfy` (module `JsText`): the JavaScript built-ins the code relies
  on, stated over `seq<char>`. These are truthiness, `||`, `join`, `split`,
  `slice(-n)`, `indexOf`, first-match `replace`, and the decimal rendering
  of a timestamp.
- `catalog.dfy` (module `Catalog`): the material catalog and its
  first-match `find`. An unloaded catalog or one without `materials` is
  `None`.
- `prompts.dfy` (module `Prompts`): `makeOverlayPrompt` and
  `makeRoomPrompt`.
- `paths.dfy` (module `Paths`): how a catalog path becomes a public URL
  (`urlFromLocalPath`), and the upload file-name rule `plan_<now><ext>`.
  It also defines the parser that reads such a name back.
- `handlers.dfy` (module `Handlers`): `POST /api/plan/decorate` and
  `POST /api/visualize`. This covers their validation order, the reference
  images they resolve, the slots those images fill, and the calls they make
  to the prediction service. The service is a parameter that answers the
  n-th call of a request.
- `client_polling.dfy` (module `Polling`): the two interval-driven pollers
  of the page, modelled as the classes `OverlayPoller` and `RoomPoller`.
  Each interval callback is one `Tick`. The status service is a parameter
  that gives the reply read in that tick for each task id.

Two behaviours of the code are worth stating up front:

- The overlay's candidate reference ids are wall, floor, doors and fabric
  (`server/src/index.js:105`), and the first three that resolve fill the
  slots. `Handlers.DecorateRefSlots` states this.
- `/api/visualize` checks only the credential (`server/src/index.js:134`);
  an absent plan URL is sent on as it is. `Handlers.Visualize` does the
  same.

The handlers build reference URLs with `urlFromLocalPath` as written
(`Paths.UrlFromLocalPath`), including the backslash-pair regular expression
described under "## Findings". The corrected rewrite
(`Paths.UrlFromLocalPathIntended`) appears only as the corrected half of
that finding.

## Model

| member | source | states |
|---|---|---|
| Catalog.Find | server/src/index.js:76 | `find` yields nothing exactly when no material has the id; otherwise it yields the first material with that id |
| Catalog.FindFirst | server/src/index.js:107 | if index i is the first material with the id, `find` returns the material at i |
| Catalog.Lookup | server/src/index.js:107 | `catalog?.materials?.find(...)`: nothing without a catalog or an id; a hit is a catalog material with the id; a miss means no material has the id |
| Catalog.LookupFirst | server/src/index.js:88 | `catalog?.materials?.find(...)` with a present catalog and id returns the first match |
| JsText.Split | server/src/index.js:70 | `split` on one character gives at least one part, and no part contains the separator |
| JsText.JoinSplit | server/src/index.js:70 | joining the parts of a split with the same separator gives back the string |
| JsText.SplitJoin | server/src/index.js:70 | splitting a join of separator-free parts gives back the parts |
| JsText.Or | server/src/index.js:93 | `a \|\| b` is `a` when `a` is truthy, and `b` otherwise |
| JsText.Join | server/src/index.js:70 | `join` of no parts is empty, and a join always starts with its first part |
| JsText.LastN | server/src/index.js:70 | `slice(-n)` keeps n elements, or all of them when there are fewer, and they are the last ones |
| JsText.IndexOf | server/src/index.js:71 | `indexOf` returns an index where the pattern occurs with no earlier occurrence, or none when it occurs nowhere |
| JsText.ReplaceFirst | server/src/index.js:71 | string-pattern `replace` rewrites only the first occurrence and leaves a string without one unchanged |
| JsText.FirstOccurrence | server/src/index.js:71 | an occurrence with no earlier occurrence is the index `indexOf` finds |
| JsText.OccursShift | server/src/index.js:71 | the occurrences in `p + s` at or after `\|p\|` are those of `s`, shifted by `\|p\|` |
| JsText.ReplaceAfterPrefix | server/src/index.js:71 | when no occurrence starts inside the prefix `p`, `replace` on `p + s` keeps `p` and replaces in `s` |
| JsText.Decimal | server/src/index.js:60 | the rendered timestamp is non-empty and all digits, with no leading zero |
| JsText.ParseDecimalOfDecimal | server/src/index.js:60 | the decimal rendering of a timestamp reads back as the same number |
| Prompts.OverlayDescribe | server/src/index.js:75-78 | a material renders as `<id> (repeat <scale> m)` using the first catalog entry with the id; a missing catalog, id or entry renders as "as uploaded"; the result is never empty |
| Prompts.OverlayClause | server/src/index.js:81 | each surface renders through the same lookup; the `\|\| 'keep original'` fallbacks for doors and fabrics never fire |
| Prompts.MakeOverlayPrompt | server/src/index.js:74-84 | the prompt is the fixed preamble, the materials clause and the fixed constraints, separated by single spaces |
| Prompts.RoomDescribe | server/src/index.js:87-90 | a material renders as `<id> at scale <scale> m` using the first matching entry, otherwise "neutral"; never empty |
| Prompts.RoomKind | server/src/index.js:92 | the room type when truthy, otherwise "room" |
| Prompts.MakeRoomPrompt | server/src/index.js:86-96 | the prompt is the opening naming the room type, the finishes clause and the fixed constraints, separated by single spaces |
| Prompts.JoinThree | server/src/index.js:79-83 | joining three parts puts exactly one separator between neighbours |
| Prompts.RoomWallPrecedence | server/src/index.js:93 | a truthy per-room wall id makes the global wall id irrelevant; an empty or absent one is the same as no override |
| Prompts.RoomFloorPrecedence | server/src/index.js:93 | the same precedence rule for the floor id |
| Prompts.OverlayClauseExample | server/src/index.js:75-81 | with the single material `wall_marble_dark_green` at scale 0.6, the clause names it for walls and "as uploaded" for the other surfaces |
| Paths.CollapseBackslashPairs | server/src/index.js:70 | the rewrite as written never lengthens the path and leaves a path without backslashes unchanged |
| Paths.CollapsePrefix | server/src/index.js:70 | a backslash-free prefix passes through the rewrite as written unchanged |
| Paths.CollapsePair | server/src/index.js:70 | after a backslash-free prefix, a pair of backslashes becomes one `/` |
| Paths.BackslashesToSlashes | server/src/index.js:70 | the intended rewrite keeps the path's length, leaves no backslash, and keeps every other character |
| Paths.UrlFromRelative | server/src/index.js:70-71 | the URL is strictly longer than the base |
| Paths.UrlFromLocalPath | server/src/index.js:69-72 | `urlFromLocalPath` as written: the URL is strictly longer than the base; its prefix and remap are stated by `UrlRemapsTextures` |
| Paths.UrlFromLocalPathIntended | server/src/index.js:69-72 | `urlFromLocalPath` with every backslash rewritten (the corrected half of the finding): strictly longer than the base |
| Paths.UrlRemapsTextures | server/src/index.js:71 | when no `/textures/` starts inside the base URL, the URL is the base followed by `/` and the kept segments, with the first `/textures/` of that part sent to `/assets/textures/` |
| Paths.TexturePathRemap | server/src/index.js:69-72 | a catalog path `textures/<rest>` of at most five segments is served from `<base>/assets/textures/<rest>` |
| Paths.TexturesExample | server/src/index.js:69-72 | with base `h`, the catalog path `textures/w/a.png` is served as `h/assets/textures/w/a.png` |
| Paths.UrlKeepsLastFiveSegments | server/src/index.js:70 | the relative part is made of the last five path segments, or all of them when there are fewer |
| Paths.ReplaceLeading | server/src/index.js:71 | a pattern that starts the string is the occurrence `replace` rewrites |
| Paths.UrlOfShortPath | server/src/index.js:69-72 | a path of at most five segments that the rewrite as written leaves alone, with no `/textures/` in `<base>/<path>`, becomes `<base>/<path>` |
| Paths.UrlSeparatorInsensitive | server/src/index.js:70 | with the intended rewrite, two paths that differ only in `\` versus `/` give the same URL |
| Paths.ShortTail | server/src/index.js:70 | `slice(-5)` keeps a path of at most five segments whole |
| Paths.AsWrittenKeepsBackslash | server/src/index.js:70 | under the regex as written, a single backslash survives into the URL |
| Paths.AsWrittenForwardSlash | server/src/index.js:70 | under the regex as written, the same path written with `/` gives `<base>/a/b` |
| Paths.AsWrittenCollapsesPair | server/src/index.js:70 | as written, a doubled backslash is a separator: `a\\b` gives the same URL as `a/b` |
| Paths.AsWrittenSeparatorSensitive | server/src/index.js:70 | under the regex as written, two paths that differ only in `\` versus `/` give different URLs |
| Paths.LastIndexOf | server/src/index.js:59 | returns the last position of the character, or none exactly when the character does not occur |
| Paths.StripTrailingSlashes | server/src/index.js:59 | the result is a prefix of the input that does not end in `/`, and everything it drops is `/` |
| Paths.BaseName | server/src/index.js:59 | the base name contains no `/` |
| Paths.ExtName | server/src/index.js:59 | `path.extname` is empty, or one dot followed by a dot-free, slash-free tail |
| Paths.LastIndexOfBefore | server/src/index.js:59 | the last occurrence of c in `a + c + b`, where b does not contain c, is at position `\|a\|` |
| Paths.BaseNameOfName | server/src/index.js:59 | a plain file name is its own base name |
| Paths.ExtNameOfFileName | server/src/index.js:59 | `stem.ext` has extension `.ext`, and a dot-free stem has none |
| Paths.UploadExt | server/src/index.js:59 | the stored extension starts with a dot; it is the original's extension, or `.png` when there is none |
| Paths.DigitRun | server/src/index.js:60 | measures the maximal run of digits at the start of a string |
| Paths.DigitRunOfDigits | server/src/index.js:60 | the digit run of digits followed by a non-digit is exactly the digits |
| Paths.ParsePlanFileNameOfParts | server/src/index.js:60 | `plan_<digits><ext>` parses back to the number and the extension |
| Paths.PlanFileName | server/src/index.js:58-61 | the stored name starts with `plan_` and parses back to the upload's timestamp and its stored extension |
| Paths.UploadUrl | server/src/index.js:65-67 | the upload response URL is the base, then `/uploads/`, then a name that parses back to the timestamp and extension |
| Handlers.KeepTruthy | server/src/index.js:105 | `filter(Boolean)` keeps at most the given ids, and none of them is empty |
| Handlers.RefUrls | server/src/index.js:104-109 | there are no more references than ids, and each reference is non-empty |
| Handlers.IdRef | server/src/index.js:107-108 | one id contributes at most one non-empty reference |
| Handlers.RefUrlsAppend | server/src/index.js:106-109 | the references of two id lists, concatenated, are the references of each list concatenated |
| Handlers.RefUrlsAllResolved | server/src/index.js:106-109 | when every id resolves, the k-th reference is the public URL of the k-th material's albedo path |
| Handlers.RefUrlsNoneResolved | server/src/index.js:106-109 | when no id resolves, there are no references |
| Handlers.RefUrlsSnoc | server/src/index.js:106-109 | handling one more id appends exactly that id's reference |
| Handlers.RefUrlsStep | server/src/index.js:106-109 | one iteration of the loop over ids appends exactly that id's reference |
| Handlers.CollectRefs | server/src/index.js:104-109 | the loop pushes exactly the references that the specification function lists |
| Handlers.Slot | server/src/index.js:116-118 | a slot is set exactly when the k-th reference exists and is truthy, and then holds it |
| Handlers.WithRefs | server/src/index.js:110-118 | the input carries the prompt, the plan as `input_image`, PNG output and the aspect ratio; with truthy references, slots 2 to 4 hold the first three |
| Handlers.Forward | server/src/index.js:125-127 | the answer is 200 exactly when the service accepted; it passes the service's body through, or its error as a 500 |
| Handlers.DecorateInput | server/src/index.js:100-115 | the overlay input has the overlay prompt, the plan URL, PNG output and the aspect ratio, "1:1" when the request has none |
| Handlers.BuildInput | server/src/index.js:110-118 | slots 2, 3 and 4 hold the first, second and third references, and a slot is empty when there is no such reference |
| Handlers.Decorate | server/src/index.js:98-129 | a missing credential gives 400 before a missing plan URL does, and neither makes a call; otherwise exactly one call is made with the overlay input and its reply is passed through (200) or turned into a 500 |
| Handlers.RefsOfCons | server/src/index.js:105-108 | the references of a candidate list are the first candidate's reference followed by the rest's |
| Handlers.RefsOfThree | server/src/index.js:138-141 | the references of three candidates are each candidate's reference, in order |
| Handlers.RefsOfFour | server/src/index.js:105-108 | the references of four candidates are each candidate's reference, in order |
| Handlers.DecorateRefSlots | server/src/index.js:104-118 | overlay slots 2 to 4 take the first three resolved references among wall, floor, doors and fabric, in that order |
| Handlers.RoomInput | server/src/index.js:133-148 | a room's input has the room prompt, the plan URL, PNG output and the aspect ratio, "16:9" when the request has none |
| Handlers.BuildRoomInput | server/src/index.js:137-151 | a room's input is its prompt, the plan, the aspect ratio and its references in slots |
| Handlers.RoomRefSlots | server/src/index.js:137-151 | room slots 2 to 4 take the resolved references of the room's wall (override first), floor (override first) and the global fabric, in that order; doors are never used |
| Handlers.RoomInputs | server/src/index.js:136-148 | tabulates the inputs of the first n rooms, one per room |
| Handlers.RoomInputsSnoc | server/src/index.js:136-148 | the input list for one more room ends with that room's input |
| Handlers.FailedOnLastExtend | server/src/index.js:153-162 | a rejected call after a run of accepted calls is the failing last call |
| Handlers.EntriesMatchExtend | server/src/index.js:158 | an accepted call adds the task entry `{room name, id, get}` for its room |
| Handlers.Visualize | server/src/index.js:131-164 | a missing credential gives 400 with no call; otherwise room k is sent as the k-th call with that room's input. On success there is one task entry per room, in room order. A rejected call ends the request with a 500 and no partial list. No rooms gives an empty list |
| Polling.ResultUrl | web/src/App.jsx:38-39 | a query outcome yields an image exactly when it is a reply whose status is "succeeded" and whose `output[0]` is truthy, and the image is `output[0]`; a rejected query yields none |
| Polling.OverlayPoller.constructor | web/src/App.jsx:17-18 | the page starts with no overlay task, no image and no timer |
| Polling.OverlayPoller.Watch | web/src/App.jsx:34-35 | setting the overlay task starts the timer exactly when the task id is truthy |
| Polling.OverlayPoller.Tick | web/src/App.jsx:36-42 | a running tick queries the one task id. On success it shows `output[0]` and stops the timer; otherwise, a rejected query included, nothing changes |
| Polling.FromEntries | web/src/App.jsx:76 | each task entry from visualize becomes an open room task with the same id and room |
| Polling.Completed | web/src/App.jsx:52-55 | a task that was already done is carried unchanged; a newly finished task is marked done with `output[0]` as its URL; id, room and poll URL are kept |
| Polling.DoneOf | web/src/App.jsx:51-58 | the `done` list of a tick is no longer than the tasks, and everything in it is done |
| Polling.PendingOf | web/src/App.jsx:51-58 | the `pending` list of a tick is no longer than the tasks and holds only original tasks that are not done |
| Polling.Open | web/src/App.jsx:51-53 | the tasks a tick queries are original tasks that are not done |
| Polling.RoundStep | web/src/App.jsx:51-58 | one iteration appends a done task to `done` unchanged, a task whose query succeeds to `done` marked done with `output[0]`, and any other task to `pending`; it queries the task exactly when it was not done |
| Polling.FirstThrow | web/src/App.jsx:51-53 | the index of the first open task whose query rejects, with no such task before it; none exactly when no open task's query rejects |
| Polling.PollRound | web/src/App.jsx:49-59 | the loop stops at the first open task whose query rejects, having queried the open tasks up to and including it. Without a rejection it puts done tasks and newly finished tasks, in list order, into `done`, and the rest into `pending`, and it queries exactly the ids of the tasks that were not done |
| Polling.Unclaimed | web/src/App.jsx:60 | the kept pending tasks are exactly those whose id is not among the done tasks |
| Polling.NextTasks | web/src/App.jsx:60 | the next list starts with all of `done`, and the rest holds exactly the pending tasks whose id no done task has |
| Polling.Gallery | web/src/App.jsx:61 | one gallery item per done task, with that task's room and URL |
| Polling.PartitionCount | web/src/App.jsx:49-59 | every task lands in exactly one of done and pending |
| Polling.TaskPlacement | web/src/App.jsx:51-58 | a done task stays in done and is not queried; a newly succeeded task appears in done as completed; a task that has not finished stays pending; everything in done is done, and pending holds only unfinished original tasks |
| Polling.StopCondition | web/src/App.jsx:62 | the timer stops (all tasks done) exactly when no task is pending, and exactly when every task has finished |
| Polling.SplitIds | web/src/App.jsx:60 | with distinct ids, no pending task shares an id with a done task |
| Polling.UniqueIdsKeepAll | web/src/App.jsx:60 | with distinct ids the de-duplication drops nothing, and the next list is as long as the current one |
| Polling.UnclaimedKeepsAll | web/src/App.jsx:60 | pending tasks whose ids are not claimed by done are all kept |
| Polling.AllDoneSplit | web/src/App.jsx:52 | when every task is done, the tick puts all of them in done, none in pending, and queries nothing |
| Polling.AllDoneFixpoint | web/src/App.jsx:46-65 | an all-done task list is a fixed point of the tick: it is rebuilt unchanged and queries nothing |
| Polling.DoneHaveUrls | web/src/App.jsx:55-61 | if every done task has a truthy URL, so does every task done after a tick and every gallery item |
| Polling.RoomPoller.constructor | web/src/App.jsx:20-21 | the page starts with no room tasks, an empty gallery and no timer |
| Polling.RoomPoller.Rearm | web/src/App.jsx:46-48 | re-running the effect keeps tasks and gallery, and runs the timer exactly when there are tasks |
| Polling.RoomPoller.Load | web/src/App.jsx:73-77 | the visualize result becomes the task list (all open), and the timer runs exactly when it is non-empty |
| Polling.NextTasksValid | web/src/App.jsx:60-62 | the rebuilt list keeps every done task's image, and it is not empty while some task is unfinished |
| Polling.RoomPoller.Tick | web/src/App.jsx:48-63 | a running tick queries the tasks not yet done. If one of those queries rejects, the callback ends there: the list, the gallery and the timer stay as they were. Otherwise the list becomes done followed by the unclaimed pending tasks, the gallery becomes the rooms and URLs of done, and this tick clears the timer exactly when every task is done (the effect then re-arms it through `Rearm` while the list is non-empty) |

## Left out

- The Express wiring, static file serving, CORS and the process start-up
  (reading the environment, locating the catalog by walking directories,
  unpacking archives, parsing the catalog JSON) are not modelled. The model
  takes the base URL, the credential and the parsed catalog as a `Config`.
- The HTTP calls to the prediction service (`axios.post`) and to the status
  endpoint are parameters, not implementations. For the prediction service,
  a network error and an error reply are both a `Rejected` reply. For the
  status endpoint, either makes the awaited query reject, which the pollers
  see as a `Thrown` outcome.
- `GET /api/tasks/:id` (`server/src/index.js:166-175`) only passes the
  service's reply through. It appears in the model only as the per-tick
  status query of the pollers.
- `Date.now()` in the upload file name is a parameter `now`, and multer's
  disk storage is not modelled.
- UploadUrl: models only an upload that carries a `file` part. A request
  without one leaves `req.file` undefined, reading `req.file.filename`
  (`server/src/index.js:66`) throws, and Express answers 500; that path is
  not modelled.
- A material's `scale_m_per_repeat` is held as the text it renders to;
  JavaScript number formatting is not modelled.
- JavaScript exceptions for `null` request fields (for example
  `textures: null` or a `null` room) are not modelled. The destructuring
  defaults apply only to absent fields, and absent fields are modelled.
- The response to a caught exception keeps only the error text, not its
  HTTP body shape.
- The room ids put into task entries are taken as strings; an absent `id`
  in the service's reply is not modelled.
- The asynchronous scheduling of React and the browser is not modelled.
  Each interval callback is one `Tick`, which either runs to the end or
  stops at the first rejected query. Ticks that overlap because a query is
  still awaited are out of scope. The status service is read as one
  snapshot per tick. The timer's re-start after `setRoomTasks` (the effect
  depends on `roomTasks`) is the separate step `RoomPoller.Rearm`. Since
  `setRoomTasks` always stores a new array, the effect re-arms the interval
  right after the tick that cleared it, so the room poller keeps ticking,
  with no queries (`Polling.AllDoneFixpoint`), for as long as the list is
  non-empty.
- The rendering of the page, the file picker, the material selects and
  `alert` are not modelled. Neither are the DEFAULT_ROOMS and default
  textures.
- `web/src/api.js` (the thin fetch wrappers) is not part of this model.

## Findings

| source | as written | input that shows it | evidently intended | confidence | as-written member | corrected member |
|---|---|---|---|---|---|---|
| server/src/index.js:70 | the regex literal `/\\\\/g` matches a pair of backslashes, so a Windows path with single `\` separators is not normalised and is split as one segment | base `h`, catalog path `a\b` versus `a/b`: the first gives `h/a\b`, while the same path written with `/` gives `h/a/b` | every backslash becomes `/`, so `\` and `/` separators give the same URL | medium; not executed | Paths.AsWrittenSeparatorSensitive | Paths.UrlSeparatorInsensitive |

The handlers keep the rewrite as written (`Paths.UrlFromLocalPath`), so
that they model the code; `Paths.UrlFromLocalPathIntended` is the corrected
definition, and `Paths.UrlSeparatorInsensitive` is the property proved
about it.

# PureGlance background coordinator in Dafny

PureGlance is a browser extension that hides video thumbnails on YouTube and VK
when they show faces that are too many or too large. Its background script,
`background.js`, coordinates the work. Content scripts send `QUEUE_DETECTION`
requests. The background script queues them as jobs and keeps one offscreen
document alive to run the face detector. It sends the jobs there one by one and
remembers which tab each dispatched job came from. For each `detection-result`
it decides hide or keep and counts the hidden videos per tab. It closes the
offscreen document after 25 idle seconds.

This project models that coordinator and proves properties of the model:

- `classifier.dfy` (module `Classifier`) is the hide/keep decision. It has a
  face-count rule and a face-area-ratio rule. `Classify` is the pure
  specification. `ClassifyDetections` is the source's loop with `break`, proved
  equal to it. Lemmas cover two worked examples, order independence and
  monotonicity.
- `coordinator.dfy` (module `Coordinator`) is the module-level state of
  `background.js`, as the fields of class `Coordinator`. There is one method per
  message handler, listener or callback, and each says what the new state is.
  Ghost logs of queued and sent jobs give the invariant `Valid()`. It says:
  - jobs are sent in the order they were queued, and a failed send does not
    reorder them (this holds because the model handles a send and its failure
    in one step; see "## Left out");
  - every queued job came from a tab with an id;
  - every ownership entry belongs to a job queued at some point under that id,
    from that tab;
  - a pending close timeout implies an empty queue (again a property of the
    atomic send).
- `url_match.dfy` (module `UrlMatch`) is the navigation listener's site filter.
  `String.prototype.includes` is modelled as a recursive function, proved equal
  to "occurs at some index".
- `scenarios.dfy` (module `Scenarios`) holds client runs that follow from the
  method contracts alone: idle teardown, retry after a failed send, ignored
  requests, several jobs in flight, one id from two tabs, and the counter reset
  on navigation.
- `wrappers.dfy` holds `Option`, which stands for JavaScript's `undefined`.

Each handler is one atomic step. What a step learns from the browser is a
parameter:
- `sendOk`: whether `chrome.runtime.sendMessage` to the offscreen document
  succeeded;
- `documentExists`: the answer of `hasOffscreenDocument()`;
- a settings record: what `chrome.storage.local.get` returned.

What a step asks of the browser is a returned `seq<Effect>`: send `detect-face`,
create or close the document, `HIDE_VIDEO`, `URL_CHANGED`, `hidden-video-count`.
`setupOffscreenDocument` suspends at `await hasOffscreenDocument()`. So
`processQueue` only emits `StartSetup`, and the rest of setup is the step
`SetupOffscreenDocument`. The `.finally` of `createDocument` is the step
`CreationSettled`. The close timeout is the field `closeTimer`. Its value is
`NoTimer`, `Pending` or `Fired`, because the source leaves
`closeOffscreenTimeoutId` set after the timeout fires. `FireCloseTimer` is the
explicit "timeout fires" step.

Other modelling choices:
- An absent original width or height is 0, since the source only tests these
  for truthiness.
- A tab id is present when it is truthy: `Some(t)` with `t != 0`.
- JavaScript numbers in the classifier are exact rationals (`real`).

What the code does, as the model shows it:
- `processQueue` does not check for a job already in flight. Each request that
  arrives while the document is ready sends the head job of the queue at once
  (itself only when the queue was empty), so several jobs can await results
  together (`Scenarios.SeveralJobsInFlight`).
- `jobToTab` is keyed by job id alone. The content script numbers its ids per
  page (`pg-0`, `pg-1`, …). So when the same id from two tabs is in flight at once, the first
  result is credited to the second tab, and the second result finds no owner
  (`Scenarios.SameIdFromTwoTabs`).
- `background.js` has no case for `RESET_COUNT`, which `content_scripts/content.js`
  sends. So that message changes nothing, and the model has no step for it.
- The hidden-video counter gets a `hidden-video-count` message only on
  navigation, and that message has no `tabId`. The popup's listener filters on
  `request.tabId` (`popup/popup.js:148`), so it ignores the message and relies on
  its two-second polling.
- The face-count rule requires `detections.length > 0` as well as
  `detections.length > faceCountThreshold`. So a threshold of 0 or below never
  hides an empty result.

## Model

| member | source | states |
|---|---|---|
| `Classifier.FailedDetection` | offscreen/offscreen.js:94-101 | The result sent when fetching or decoding fails has no detections and a 0 x 0 image. It meets the classifier's precondition, and every configuration keeps it (fail open). |
| `Classifier.ImageArea` | background.js:184-187 | The image area uses the original size when both original dimensions are present, else the detected size. It is positive whenever the detected image has a positive size. |
| `Classifier.ScaleX` | background.js:189 | The horizontal scale factor is positive. With an original width present it maps the detected width back onto it; without one it is 1. |
| `Classifier.ScaleY` | background.js:190 | The vertical scale factor is positive. With an original height present it maps the detected height back onto it; without one it is 1. |
| `Classifier.FaceRatio` | background.js:193-197 | A face's ratio is non-negative and is the scaled face area (`FaceArea`, lines 193-195) as a share of the image area: ratio times image area gives the face area back. |
| `Classifier.FirstLargeFace` | background.js:192-214 | The area scan returns the first index at or after `from` whose scaled face ratio reaches `threshold/100`. Every earlier detection is below it. On `None`, no detection from `from` on reaches it. The per-box test `IsLargeFace` is the comparison `ratio >= threshold / 100` of line 207. |
| `Classifier.Classify` | background.js:171-215 | An empty detection list is kept. It hides for the face count exactly when the count rule `CountRuleHides` (lines 174-178) holds: enabled, non-zero, strictly above the threshold. It hides at all exactly when the count rule holds, or area checking is on and some detection is a large face. A `LargeFace(k)` reason names the first large face, and only when area checking is on. |
| `Classifier.ClassifyDetections` | background.js:171-215 | The source's `shouldHide`/`reason` computation, with the loop that stops at the first large face, returns exactly `Classify`'s verdict. |
| `Classifier.HideIgnoresDetectionOrder` | background.js:192-214 | Reordering the detections (same multiset) does not change whether the thumbnail is hidden. |
| `Classifier.LowerThresholdStillHides` | background.js:207 | A thumbnail hidden at some area threshold is also hidden at any lower area threshold. |
| `Classifier.ExtraFaceStillHides` | background.js:174-215 | Adding one more detection to a hidden result keeps it hidden. |
| `Classifier.ThreeFacesHideByCount` | background.js:174-181 | Three detections under the default settings (face-count threshold 2) hide for the face count, whatever the areas. |
| `Classifier.LargeFaceHidesByArea` | background.js:183-215 | A 200 x 200 box on a 480 x 270 detected image from a 1920 x 1080 thumbnail scales by 4 per axis. Its ratio 640000/2073600 reaches 5 percent, so it is hidden for detection 0. |
| `UrlMatch.Includes` | background.js:255-257 | `s.includes(sub)` holds exactly when `sub` occurs in `s` at some index. |
| `UrlMatch.WatchPageIsVideoSite` | background.js:252-258 | Every URL of the form `https://www.youtube.com/` followed by any text passes the supported-site filter. |
| `UrlMatch.IsVideoSiteUrl` | background.js:252-258 | The URL filter passes exactly when the URL is non-empty and `youtube.com`, `vk.com` or `vkvideo.ru` occurs in it at some index. |
| `UrlMatch.EmbeddedUrlIsVideoSite` | background.js:252-258 | The filter tests substrings, not hosts: a URL that passes still passes with any text added before or after it. |
| `Coordinator.Coordinator.constructor` | background.js:3-10 | At load the queue and both maps are empty, both flags are false and no timeout is set. |
| `Coordinator.Coordinator.ProcessQueue` | background.js:55-101 | A timeout is always cleared first. An empty queue arms a new one and sends nothing. With work but no ready document, only setup starts and the queue is unchanged. Otherwise the head job goes into `jobToTab` and is sent, leaving the rest in order. A failed send puts it back, giving the pre-dispatch queue, marks the document not ready and closes it. `Valid()` holds afterwards. |
| `Coordinator.Coordinator.CloseOffscreenDocumentCleanup` | background.js:45-53 | With a non-empty queue nothing changes. Otherwise the document is marked not ready and closed. Its frame covers only `isOffscreenReady`. |
| `Coordinator.Coordinator.FireCloseTimer` | background.js:62-67 | When the pending timeout fires, its id stays set. The queue is then empty by the invariant, so the document is always released. |
| `Coordinator.Coordinator.SetupOffscreenDocument` | background.js:18-43 | An existing, ready document gets the queue processed. An existing one that is not ready changes nothing. With no document, a creation starts unless one is under way. No second creation starts while `isCreatingOffscreen` is set. |
| `Coordinator.Coordinator.CreationSettled` | background.js:40-42 | The creation flag is cleared whether the creation succeeded or failed, and nothing else changes. |
| `Coordinator.Coordinator.QueueDetection` | background.js:105-131 | The job is accepted only when the sender has a tab id and the extension is enabled. An accepted job carries the request's id and image, the sender's tab id and the logging flag. It is appended at the tail, and the queue is then processed from that state. Otherwise nothing changes and nothing is emitted. |
| `Coordinator.Coordinator.OffscreenReady` | background.js:133-136 | The document becomes ready, and the queue is processed as from a ready state. |
| `Coordinator.Coordinator.DetectionResult` | background.js:138-237 | The owner is `Owner`, the `jobToTab.get` of line 139, and the job's `jobToTab` entry is always deleted. With no owner, no counter changes. When the owner's verdict is hide, exactly that tab's counter rises by 1 (`CountOf`, the `get(tabId) || 0` of line 222: absent counts as 0), no other tab changes, and `HIDE_VIDEO` goes to that tab. Then the queue is processed. |
| `Coordinator.Coordinator.GetHiddenVideoCount` | background.js:239-245 | The answer is the stored count for a tracked tab, and 0 for an untracked tab (`CountOf`, line 242) or when no truthy tab id is given. |
| `Coordinator.Coordinator.HistoryStateUpdated` | background.js:250-276 | A main-frame navigation to a URL containing youtube.com, vk.com or vkvideo.ru sets that tab's counter to 0, leaves other tabs alone, and notifies the popup and the page. Any other navigation changes nothing. |

## Left out

- `hasOffscreenDocument` (`clients.matchAll`): its answer is the `documentExists` parameter of `SetupOffscreenDocument`.
- QueueDetection, DetectionResult: a failed `chrome.storage.local.get` is not modelled; `QueueSettings` and `ClassifyConfig` stand for a successful read. The source does not catch that rejection, so it ends the async listener. In `QUEUE_DETECTION` (background.js:107) the request is then dropped. In `detection-result` (background.js:157) the `jobToTab` entry is already deleted, no counter changes, and `processQueue()` (background.js:236) does not run on that result, so the next queued job is not sent by it.
- Real time: `setTimeout`/`clearTimeout` become the `closeTimer` field and the `FireCloseTimer` step. The 25-second delay is only the constant `CloseDelayMs`, and a re-armed timeout cannot be told apart from the one it replaced.
- `chrome.runtime`, `chrome.tabs`, `chrome.offscreen` and `chrome.storage`: calls become returned effects, and their outcomes become parameters. Rejections that the source ignores (`closeDocument`, `HIDE_VIDEO`, `URL_CHANGED`, `hidden-video-count`) have no effect in the model.
- Interleavings at `await` points: each handler is one atomic step. In the source, the `.catch` of a failed send runs later. Another request could arm the close timeout in between, and then the cleanup's queue check matters. In the model, the cleanup's non-empty branch is reachable only by calling it directly, not from the timeout. A late rejection can also reorder the queue: with the document ready and queue [A], A is sent; a request for B then sends B too; A's rejection puts A back ([A]) and B's puts B in front of it ([B, A]), so the retry sends B before A. The model's "sent in queued order" invariant does not capture that run.
- Floating-point rounding in the ratio computation. The model uses exact rationals.
- Classifier.ClassifyDetections: computes the two scale factors inside the loop, where a detection guarantees a positive image size. The source computes them once before the loop, where with a 0 x 0 failure image a factor is `Infinity` when its original dimension is present and 1 when it is absent, and in both cases unused.
- String-to-number coercion of thresholds stored by the popup: thresholds are numbers.
- Console logging and the formatted `reason` text: the reason is the enum `Reason`, which records the first large face's index.
- The image payload (`dataUrl` or `url`) and the logging flag are passed through in `Job` without interpretation.
- `content_scripts/`, `popup/`, `offscreen/offscreen.js` (except its failure shape) and `build.js`: these are DOM, UI and packaging glue with no coordinator logic.
- An in-process detector for browsers without the offscreen API: `background.js` does not contain one, so it is not part of this model.

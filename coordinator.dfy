/**
 * The background coordinator of background.js: the module-level state (the
 * detection queue, the offscreen-document flags, the close timer, the job
 * ownership map and the per-tab hidden-video counters) and the steps that
 * update it, one method per message handler, listener or callback.
 *
 * Each handler is one atomic step. What a step learns from the browser is a
 * parameter: whether `chrome.runtime.sendMessage` to the offscreen document
 * succeeded (`sendOk`), whether an offscreen document exists
 * (`documentExists`), and the settings read from `chrome.storage.local`.
 * What a step asks of the browser is returned as a sequence of effects.
 */
module Coordinator {
  import opened Wrappers
  import Classifier
  import UrlMatch

  type JobId = string
  type TabId = int

  /** Idle time, in milliseconds, after which the offscreen document is closed. */
  const CloseDelayMs: nat := 25 * 1000

  /** A `QUEUE_DETECTION` request: the image (inline or by URL) and its natural size, 0 when absent. */
  datatype DetectionRequest = DetectionRequest(
    id: JobId, dataUrl: Option<string>, url: Option<string>, origWidth: nat, origHeight: nat)

  /** An entry of `detectionQueue`: the request, the sending tab and the logging setting. */
  datatype Job = Job(
    id: JobId, tabId: TabId, dataUrl: Option<string>, url: Option<string>,
    origWidth: nat, origHeight: nat, isLoggingEnabled: bool)

  /** The settings the `QUEUE_DETECTION` handler reads from storage. */
  datatype QueueSettings = QueueSettings(isEnabled: bool, isLoggingEnabled: bool)

  const DefaultQueueSettings := QueueSettings(true, false)

  /** A `detection-result` message. */
  datatype ResultMessage = ResultMessage(id: JobId, result: Classifier.DetectionResult)

  /** The `details` of a `webNavigation.onHistoryStateUpdated` event. */
  datatype NavigationDetails = NavigationDetails(tabId: TabId, frameId: int, url: string)

  /**
   * `closeOffscreenTimeoutId`: null, the id of a pending timeout (armed for
   * `CloseDelayMs` milliseconds), or the id of a timeout that already fired
   * (the source does not reset it to null then).
   */
  datatype CloseTimer = NoTimer | Pending | Fired

  /** What a step asks of the browser. */
  datatype Effect =
    | DetectFace(job: Job)          // a `detect-face` message the offscreen document accepted
    | DetectFaceRejected(job: Job)  // a `detect-face` message whose sending failed
    | StartSetup                    // `setupOffscreenDocument()`; it resumes as SetupOffscreenDocument
    | CreateDocument                // `chrome.offscreen.createDocument`
    | CloseDocument                 // `chrome.offscreen.closeDocument`
    | HideVideo(tabId: TabId, id: JobId)
    | CountReset                    // `hidden-video-count` with count 0, to the popup
    | UrlChanged(tabId: TabId)

  /** A truthy tab id: present and not 0. */
  predicate HasTab(tab: Option<TabId>) {
    tab.Some? && tab.value != 0
  }

  /** The job queued for `request` from tab `tabId`. */
  function JobOf(request: DetectionRequest, tabId: TabId, settings: QueueSettings): Job {
    Job(request.id, tabId, request.dataUrl, request.url,
        request.origWidth, request.origHeight, settings.isLoggingEnabled)
  }

  /** `jobToTab.get(id)`. */
  function Owner(owners: map<JobId, TabId>, id: JobId): Option<TabId> {
    if id in owners then Some(owners[id]) else None
  }

  /** `hiddenVideoCountPerTab.get(tabId) || 0`. */
  function CountOf(counts: map<TabId, nat>, tabId: TabId): nat {
    if tabId in counts then counts[tabId] else 0
  }

  class Coordinator {
    var queue: seq<Job>                           // detectionQueue
    var isOffscreenReady: bool
    var isCreatingOffscreen: bool
    var closeTimer: CloseTimer                    // closeOffscreenTimeoutId
    var jobToTab: map<JobId, TabId>
    var hiddenVideoCountPerTab: map<TabId, nat>

    /** Every job ever queued, in the order it was queued. */
    ghost var enqueued: seq<Job>
    /** Every job the offscreen document accepted, in the order it was sent. */
    ghost var delivered: seq<Job>

    /**
     * What holds whenever `processQueue` starts:
     * jobs are sent in the order they were queued and the queue holds exactly
     * the ones not yet sent (with a send and its failure in one step, a failed
     * send therefore does not reorder anything);
     * every job came from a tab with a truthy id; and every ownership entry
     * names the tab of a job that was queued under that id.
     */
    ghost predicate Inv()
      reads this
    {
      && delivered + queue == enqueued
      && (forall j :: j in enqueued ==> j.tabId != 0)
      && (forall id :: id in jobToTab ==>
            exists j :: j in enqueued && j.id == id && j.tabId == jobToTab[id])
    }

    /** Between steps, in addition: a pending close timeout implies an empty queue. */
    ghost predicate Valid()
      reads this
    {
      Inv() && (closeTimer == Pending ==> queue == [])
    }

    /**
     * The state and effects `processQueue` leaves when started on queue `q`, with
     * readiness `ready`, ownership map `owners` and delivery log `sent`: it clears
     * the close timeout; on an empty queue it arms a new one; with work but no
     * ready document it only starts the setup; otherwise it moves the head job
     * into the ownership map and sends it, putting it back at the head and
     * marking the document broken when the send fails.
     */
    ghost predicate ProcessedFrom(
      q: seq<Job>, ready: bool, owners: map<JobId, TabId>, sent: seq<Job>,
      sendOk: bool, out: seq<Effect>)
      reads this
    {
      if q == [] then
        && closeTimer == Pending && queue == [] && isOffscreenReady == ready
        && jobToTab == owners && delivered == sent && out == []
      else if !ready then
        && closeTimer == NoTimer && queue == q && !isOffscreenReady
        && jobToTab == owners && delivered == sent && out == [StartSetup]
      else
        && closeTimer == NoTimer
        && jobToTab == owners[q[0].id := q[0].tabId]
        && (sendOk ==>
              queue == q[1..] && isOffscreenReady && delivered == sent + [q[0]]
              && out == [DetectFace(q[0])])
        && (!sendOk ==>
              queue == q && !isOffscreenReady && delivered == sent
              && out == [DetectFaceRejected(q[0]), CloseDocument])
    }

    /** The state when background.js is loaded. */
    constructor ()
      ensures Valid()
      ensures queue == [] && !isOffscreenReady && !isCreatingOffscreen && closeTimer == NoTimer
      ensures jobToTab == map[] && hiddenVideoCountPerTab == map[]
      ensures enqueued == [] && delivered == []
    {
      queue := [];
      isOffscreenReady := false;
      isCreatingOffscreen := false;
      closeTimer := NoTimer;
      jobToTab := map[];
      hiddenVideoCountPerTab := map[];
      enqueued := [];
      delivered := [];
    }

    /** `processQueue`: dispatches at most the head job. */
    method ProcessQueue(sendOk: bool) returns (out: seq<Effect>)
      requires Inv()
      modifies this
      ensures Valid()
      ensures ProcessedFrom(old(queue), old(isOffscreenReady), old(jobToTab), old(delivered), sendOk, out)
      ensures isCreatingOffscreen == old(isCreatingOffscreen)
      ensures hiddenVideoCountPerTab == old(hiddenVideoCountPerTab)
      ensures enqueued == old(enqueued)
    {
      if closeTimer != NoTimer {
        closeTimer := NoTimer;
      }
      if |queue| == 0 {
        closeTimer := Pending;
        out := [];
        return;
      }
      if !isOffscreenReady {
        out := [StartSetup];
        return;
      }
      var item := queue[0];
      assert item == enqueued[|delivered|];
      queue := queue[1..];
      jobToTab := jobToTab[item.id := item.tabId];
      if sendOk {
        delivered := delivered + [item];
        out := [DetectFace(item)];
      } else {
        queue := [item] + queue;
        isOffscreenReady := false;
        out := [DetectFaceRejected(item), CloseDocument];
      }
    }

    /** `closeOffscreenDocumentCleanup`: closes the document only if the queue is empty. */
    method CloseOffscreenDocumentCleanup() returns (out: seq<Effect>)
      requires Valid()
      modifies this`isOffscreenReady
      ensures Valid()
      ensures old(queue) != [] ==> isOffscreenReady == old(isOffscreenReady) && out == []
      ensures old(queue) == [] ==> !isOffscreenReady && out == [CloseDocument]
    {
      if |queue| > 0 {
        out := [];
        return;
      }
      isOffscreenReady := false;
      out := [CloseDocument];
    }

    /**
     * The close timeout expires and runs the cleanup. A timeout is pending only
     * while the queue is empty, so it always releases the document.
     */
    method FireCloseTimer() returns (out: seq<Effect>)
      requires Valid() && closeTimer == Pending
      modifies this`closeTimer, this`isOffscreenReady
      ensures Valid() && closeTimer == Fired
      ensures !isOffscreenReady && out == [CloseDocument]
    {
      closeTimer := Fired;
      out := CloseOffscreenDocumentCleanup();
    }

    /**
     * `setupOffscreenDocument`, from the point where `hasOffscreenDocument()`
     * answered `documentExists`: an existing, ready document gets the queue
     * processed; an existing one that is not ready is left to announce itself;
     * otherwise a document is created unless a creation is already under way.
     */
    method SetupOffscreenDocument(documentExists: bool, sendOk: bool) returns (out: seq<Effect>)
      requires Valid()
      modifies this
      ensures Valid()
      ensures hiddenVideoCountPerTab == old(hiddenVideoCountPerTab) && enqueued == old(enqueued)
      ensures documentExists && old(isOffscreenReady) ==>
        && isCreatingOffscreen == old(isCreatingOffscreen)
        && ProcessedFrom(old(queue), true, old(jobToTab), old(delivered), sendOk, out)
      ensures !(documentExists && old(isOffscreenReady)) ==>
        && queue == old(queue) && isOffscreenReady == old(isOffscreenReady)
        && closeTimer == old(closeTimer) && jobToTab == old(jobToTab) && delivered == old(delivered)
      ensures documentExists && !old(isOffscreenReady) ==>
        isCreatingOffscreen == old(isCreatingOffscreen) && out == []
      ensures !documentExists ==>
        isCreatingOffscreen && out == (if old(isCreatingOffscreen) then [] else [CreateDocument])
      ensures old(isCreatingOffscreen) ==> CreateDocument !in out
    {
      if documentExists {
        if isOffscreenReady {
          out := ProcessQueue(sendOk);
        } else {
          out := [];
        }
        return;
      }
      if isCreatingOffscreen {
        out := [];
        return;
      }
      isCreatingOffscreen := true;
      out := [CreateDocument];
    }

    /** The `.finally` of `createDocument`: runs whether the creation succeeded or failed. */
    method CreationSettled()
      requires Valid()
      modifies this`isCreatingOffscreen
      ensures Valid() && !isCreatingOffscreen
    {
      isCreatingOffscreen := false;
    }

    /**
     * `QUEUE_DETECTION`: from a sender with a tab id and with the extension
     * enabled, the job goes to the tail of the queue and the queue is
     * processed; otherwise nothing changes.
     */
    method QueueDetection(
      request: DetectionRequest, senderTab: Option<TabId>, settings: QueueSettings, sendOk: bool)
      returns (out: seq<Effect>)
      requires Valid()
      modifies this
      ensures Valid()
      ensures isCreatingOffscreen == old(isCreatingOffscreen)
      ensures hiddenVideoCountPerTab == old(hiddenVideoCountPerTab)
      ensures HasTab(senderTab) && settings.isEnabled ==>
        var job := JobOf(request, senderTab.value, settings);
        && enqueued == old(enqueued) + [job]
        && ProcessedFrom(old(queue) + [job], old(isOffscreenReady), old(jobToTab), old(delivered), sendOk, out)
      ensures !(HasTab(senderTab) && settings.isEnabled) ==> unchanged(this) && out == []
    {
      out := [];
      if HasTab(senderTab) && settings.isEnabled {
        var job := JobOf(request, senderTab.value, settings);
        queue := queue + [job];
        enqueued := enqueued + [job];
        out := ProcessQueue(sendOk);
      }
    }

    /** `offscreen-ready`: the document is ready and the queue is processed. */
    method OffscreenReady(sendOk: bool) returns (out: seq<Effect>)
      requires Valid()
      modifies this
      ensures Valid()
      ensures ProcessedFrom(old(queue), true, old(jobToTab), old(delivered), sendOk, out)
      ensures isCreatingOffscreen == old(isCreatingOffscreen)
      ensures hiddenVideoCountPerTab == old(hiddenVideoCountPerTab)
      ensures enqueued == old(enqueued)
    {
      isOffscreenReady := true;
      out := ProcessQueue(sendOk);
    }

    /**
     * `detection-result`: the job's ownership entry is deleted; when it had an
     * owner and the decision is to hide, that tab's counter goes up by one and
     * the tab is told to hide the video; then the queue is processed.
     */
    method DetectionResult(message: ResultMessage, cfg: Classifier.ClassifyConfig, sendOk: bool)
      returns (out: seq<Effect>)
      requires Valid() && Classifier.Measurable(message.result)
      modifies this
      ensures Valid()
      ensures isCreatingOffscreen == old(isCreatingOffscreen) && enqueued == old(enqueued)
      ensures
        var owner := Owner(old(jobToTab), message.id);
        var hides := HasTab(owner) && Classifier.Classify(message.result, cfg).Hide?;
        var shown := (if hides then [HideVideo(owner.value, message.id)] else []);
        && hiddenVideoCountPerTab ==
             (if hides then old(hiddenVideoCountPerTab)[owner.value := CountOf(old(hiddenVideoCountPerTab), owner.value) + 1]
              else old(hiddenVideoCountPerTab))
        && |shown| <= |out| && out[..|shown|] == shown
        && ProcessedFrom(old(queue), old(isOffscreenReady), old(jobToTab) - {message.id},
                         old(delivered), sendOk, out[|shown|..])
    {
      var owner := Owner(jobToTab, message.id);
      jobToTab := jobToTab - {message.id};
      out := [];
      if HasTab(owner) {
        var verdict := Classifier.ClassifyDetections(message.result, cfg);
        if verdict.Hide? {
          var currentCount := CountOf(hiddenVideoCountPerTab, owner.value);
          hiddenVideoCountPerTab := hiddenVideoCountPerTab[owner.value := currentCount + 1];
          out := [HideVideo(owner.value, message.id)];
        }
      }
      var more := ProcessQueue(sendOk);
      out := out + more;
    }

    /** `get-hidden-video-count`: the stored count, or 0 for an untracked tab or no tab id. */
    method GetHiddenVideoCount(tabId: Option<TabId>) returns (count: nat)
      ensures HasTab(tabId) && tabId.value in hiddenVideoCountPerTab ==>
        count == hiddenVideoCountPerTab[tabId.value]
      ensures !(HasTab(tabId) && tabId.value in hiddenVideoCountPerTab) ==> count == 0
    {
      count := if HasTab(tabId) then CountOf(hiddenVideoCountPerTab, tabId.value) else 0;
    }

    /**
     * `onHistoryStateUpdated`: a main-frame navigation on a supported site resets
     * the tab's counter to 0 and notifies the popup and the page.
     */
    method HistoryStateUpdated(details: NavigationDetails) returns (out: seq<Effect>)
      requires Valid()
      modifies this`hiddenVideoCountPerTab
      ensures Valid()
      ensures details.frameId == 0 && UrlMatch.IsVideoSiteUrl(details.url) ==>
        && hiddenVideoCountPerTab == old(hiddenVideoCountPerTab)[details.tabId := 0]
        && out == [CountReset, UrlChanged(details.tabId)]
      ensures !(details.frameId == 0 && UrlMatch.IsVideoSiteUrl(details.url)) ==>
        hiddenVideoCountPerTab == old(hiddenVideoCountPerTab) && out == []
    {
      out := [];
      if details.frameId == 0 && UrlMatch.IsVideoSiteUrl(details.url) {
        hiddenVideoCountPerTab := hiddenVideoCountPerTab[details.tabId := 0];
        out := [CountReset, UrlChanged(details.tabId)];
      }
    }
  }
}

/**
 * Runs of the coordinator that follow from the contracts of its steps alone.
 */
module Scenarios {
  import opened Wrappers
  import opened Classifier
  import opened Coordinator

  /** A thumbnail request as the content script sends it, with an inline image. */
  function Request(id: JobId): DetectionRequest {
    DetectionRequest(id, Some("data:image/jpeg;base64,"), None, 1920, 1080)
  }

  /** A result with three faces on the 480 x 270 image: hidden under the default settings. */
  function Crowd(): Classifier.DetectionResult {
    Classifier.DetectionResult([Box(10, 10), Box(10, 10), Box(10, 10)], Sizes(480, 270, 1920, 1080))
  }

  /** The crowd is hidden for the face count under the default settings. */
  lemma CrowdHidesByCount()
    ensures Classify(Crowd(), DefaultConfig) == Hide(FaceCount)
  {
    ThreeFacesHideByCount(Crowd());
  }

  /**
   * Idle teardown: an empty queue arms the close timeout; a request before it
   * fires cancels it; once the queue is empty again and the timeout fires, the
   * offscreen document is released.
   */
  method IdleTeardown() {
    var c := new Coordinator();
    var out := c.OffscreenReady(true);
    assert out == [] && c.closeTimer == Pending && c.isOffscreenReady;

    var job := JobOf(Request("pg-0"), 7, DefaultQueueSettings);
    out := c.QueueDetection(Request("pg-0"), Some(7), DefaultQueueSettings, true);
    assert out == [DetectFace(job)] && c.closeTimer == NoTimer && c.queue == [];
    assert c.jobToTab == map["pg-0" := 7];

    out := c.DetectionResult(ResultMessage("pg-0", Crowd()), DefaultConfig, true);
    CrowdHidesByCount();
    assert out == [HideVideo(7, "pg-0")];
    assert c.closeTimer == Pending && c.jobToTab == map[];
    var count := c.GetHiddenVideoCount(Some(7));
    assert count == 1;

    out := c.FireCloseTimer();
    assert out == [CloseDocument] && !c.isOffscreenReady && c.closeTimer == Fired;
  }

  /**
   * A failed send puts the job back at the head and marks the document broken;
   * the next request only starts the setup, and once the document is ready
   * again the failed job is the one sent first.
   */
  method RetryAfterFailedSend() {
    var c := new Coordinator();
    var out := c.OffscreenReady(true);
    var first := JobOf(Request("pg-0"), 7, DefaultQueueSettings);
    var second := JobOf(Request("pg-1"), 7, DefaultQueueSettings);

    out := c.QueueDetection(Request("pg-0"), Some(7), DefaultQueueSettings, false);
    assert out == [DetectFaceRejected(first), CloseDocument];
    assert c.queue == [first] && !c.isOffscreenReady;

    out := c.QueueDetection(Request("pg-1"), Some(7), DefaultQueueSettings, true);
    assert out == [StartSetup] && c.queue == [first, second];

    out := c.SetupOffscreenDocument(false, true);
    assert out == [CreateDocument] && c.isCreatingOffscreen;
    out := c.SetupOffscreenDocument(false, true);
    assert out == [];
    c.CreationSettled();

    out := c.OffscreenReady(true);
    assert out == [DetectFace(first)] && c.queue == [second];
    assert c.delivered == [first];
  }

  /**
   * Requests from a tab without an id, or while the extension is disabled,
   * leave the coordinator as it was.
   */
  method IgnoredRequests() {
    var c := new Coordinator();
    var out := c.QueueDetection(Request("pg-0"), None, DefaultQueueSettings, true);
    assert out == [] && c.queue == [] && c.closeTimer == NoTimer;
    out := c.QueueDetection(Request("pg-0"), Some(0), DefaultQueueSettings, true);
    assert out == [] && c.queue == [];
    out := c.QueueDetection(Request("pg-0"), Some(7), QueueSettings(false, false), true);
    assert out == [] && c.queue == [] && c.enqueued == [];
  }

  /**
   * `processQueue` has no check for a job already in flight: every request that
   * arrives while the document is ready is sent at once, so several jobs await
   * their results together.
   */
  method SeveralJobsInFlight() {
    var c := new Coordinator();
    var out := c.OffscreenReady(true);
    out := c.QueueDetection(Request("pg-0"), Some(7), DefaultQueueSettings, true);
    out := c.QueueDetection(Request("pg-1"), Some(7), DefaultQueueSettings, true);
    assert out == [DetectFace(JobOf(Request("pg-1"), 7, DefaultQueueSettings))];
    assert c.jobToTab == map["pg-0" := 7, "pg-1" := 7];
  }

  /**
   * Ownership is keyed by the job id alone, and the content script numbers its
   * ids per page. Tabs 1 and 2 each send their first request, `pg-0`, to a
   * ready document: both jobs are in flight and the one entry names tab 2.
   */
  method SameIdInFlightFromTwoTabs() returns (c: Coordinator)
    ensures fresh(c) && c.Valid()
    ensures c.queue == [] && c.isOffscreenReady && c.jobToTab == map["pg-0" := 2]
    ensures c.hiddenVideoCountPerTab == map[]
    ensures c.delivered == [JobOf(Request("pg-0"), 1, DefaultQueueSettings), JobOf(Request("pg-0"), 2, DefaultQueueSettings)]
  {
    c := new Coordinator();
    var out := c.OffscreenReady(true);
    assert c.queue == [] && c.isOffscreenReady && c.jobToTab == map[] && c.hiddenVideoCountPerTab == map[];
    out := c.QueueDetection(Request("pg-0"), Some(1), DefaultQueueSettings, true);
    assert c.queue == [] && c.isOffscreenReady && c.jobToTab == map["pg-0" := 1];
    out := c.QueueDetection(Request("pg-0"), Some(2), DefaultQueueSettings, true);
  }

  /**
   * With both `pg-0` jobs in flight, the first result is credited to the second
   * tab and the second result finds no owner.
   */
  method SameIdFromTwoTabs() {
    var c := SameIdInFlightFromTwoTabs();
    CrowdHidesByCount();
    assert Owner(c.jobToTab, "pg-0") == Some(2) && CountOf(c.hiddenVideoCountPerTab, 2) == 0;
    var out := c.DetectionResult(ResultMessage("pg-0", Crowd()), DefaultConfig, true);
    assert out == [HideVideo(2, "pg-0")];
    assert c.queue == [] && c.jobToTab == map[] && c.hiddenVideoCountPerTab == map[2 := 1];
    assert Owner(c.jobToTab, "pg-0") == None;
    out := c.DetectionResult(ResultMessage("pg-0", Crowd()), DefaultConfig, true);
    assert out == [];
    assert c.hiddenVideoCountPerTab == map[2 := 1];
  }

  /**
   * A navigation to any YouTube page resets the tab's counter; the count query
   * then answers 0.
   */
  method NavigationResetsCount(page: string) {
    var c := new Coordinator();
    var out := c.OffscreenReady(true);
    out := c.QueueDetection(Request("pg-0"), Some(7), DefaultQueueSettings, true);
    assert c.queue == [] && c.jobToTab == map["pg-0" := 7];
    CrowdHidesByCount();
    out := c.DetectionResult(ResultMessage("pg-0", Crowd()), DefaultConfig, true);
    assert c.hiddenVideoCountPerTab == map[7 := 1];
    var count := c.GetHiddenVideoCount(Some(7));
    assert count == 1;

    UrlMatch.WatchPageIsVideoSite(page);
    out := c.HistoryStateUpdated(NavigationDetails(7, 0, "https://www.youtube.com/" + page));
    assert out == [CountReset, UrlChanged(7)];
    count := c.GetHiddenVideoCount(Some(7));
    assert count == 0;
    count := c.GetHiddenVideoCount(None);
    assert count == 0;
  }
}

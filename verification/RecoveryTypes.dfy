/** What a video recovery works with: the waiting messages, the job row, and what a step does to the outside. */
module RecoveryTypes {
  import opened Wrappers
  import opened CameraMedia

  datatype BotKind = NotificationBot | DriverBot

  /** A message already sent, waiting for its video. The caption is the text that message carries. */
  datatype Ref = Ref(botKind: BotKind, chatId: string, messageId: Option<int>, caption: string)

  datatype Urls = Urls(forward: Option<string>, inward: Option<string>)

  const NO_URLS := Urls(None, None)

  predicate HasUrls(urls: Urls) {
    urls.forward.Some? || urls.inward.Some?
  }

  datatype Status = PendingRecheck | PendingRetrieval | VideoAvailable | Completed | NoVideo | Failed

  predicate Open(status: Status) {
    status.PendingRecheck? || status.PendingRetrieval? || status.VideoAvailable?
  }

  /** The columns a claim returns (`JOB_COLUMNS`). */
  datatype Job = Job(
    eventId: string, vehicleId: Option<string>, rawEvent: Option<RawEvent>,
    targets: seq<Ref>, status: Status, attempts: nat,
    retrievalId: Option<string>, requestedAt: Option<int>,
    windowStart: Option<int>, windowEnd: Option<int>)

  /** "Must we never ask again?" */
  predicate Asked(job: Job) {
    job.retrievalId.Some? || job.requestedAt.Some?
  }

  datatype Row = Row(job: Job, nextCheckAt: int, lockedAt: Option<int>)

  /** The one statement that ends a step: `reschedule` or `finish`. An absent field keeps the column. */
  datatype WriteCmd =
    | Reschedule(status: Status, delaySeconds: int, retrievalId: Option<string>, requested: bool,
                 windowStart: Option<int>, windowEnd: Option<int>, targets: Option<seq<Ref>>)
    | Finish(status: Status, targets: Option<seq<Ref>>)

  /** How Samsara answers a retrieval request: with a status, not at all, or by accepting it. */
  datatype AskAnswer = Refused | Unknown | Accepted(id: Option<string>, urls: Urls)

  /** What a step does that something outside the process can see, in order. */
  datatype Effect =
    | Ask(window: Window, answer: AskAnswer)
    | Drop(ref: Ref)                          // switched off: this message will never get the video
    | Post(ref: Ref)                          // a new video message carrying the caption of `ref`
    | Erase(ref: Ref)                         // the original text message is deleted
    | Write(cmd: WriteCmd, thrown: bool)      // `thrown`: written by the catch of `tick`

  ghost predicate DistinctChats(refs: seq<Ref>) {
    forall i, j :: 0 <= i < j < |refs| ==> refs[i].chatId != refs[j].chatId
  }
}

/**
  How a text-only alert becomes a video one (`src/videoBackfill.js`), and which
  waiting messages are looked at in the first place (`src/driverGroupSwitch.js`).
  What the database and Telegram answer is an input, one answer per message.
*/
module VideoBackfill {
  import opened RecoveryTypes

  const TELEGRAM_CAPTION_LIMIT := 1024

  /** The caption a video message can carry: the text itself, or as much of it as Telegram takes. */
  function FitCaption(caption: string): (fitted: string)
    ensures |fitted| <= 1024
    ensures |caption| <= 1024 ==> fitted == caption
    ensures |caption| > 1024 ==> |fitted| == 1024 && fitted[1023] == '\U{2026}'
    ensures forall i :: 0 <= i < |fitted| && i < 1023 ==> fitted[i] == caption[i]
  {
    if |caption| <= TELEGRAM_CAPTION_LIMIT then caption
    else caption[..TELEGRAM_CAPTION_LIMIT - 1] + "\U{2026}"
  }

  datatype SwitchAnswer = SwitchOn | SwitchOff | SwitchUnreadable

  /**
    What one message's attempt meets: the driver group's switch, whether its bot
    exists, whether the media group, the single video and the deletion go through.
    A call that does not go through has delivered nothing.
  */
  datatype TargetAnswer = TargetAnswer(switch: SwitchAnswer, botReady: bool, dual: bool, single: bool, erase: bool)

  datatype Disposition = Send | Dropped | Held

  function DispositionOf(ref: Ref, answer: TargetAnswer): Disposition {
    if !ref.botKind.DriverBot? then Send
    else match answer.switch
      case SwitchOn => Send
      case SwitchOff => Dropped
      case SwitchUnreadable => Held
  }

  /** The messages of one disposition, in their order. */
  function Sorted(targets: seq<Ref>, answer: Ref -> TargetAnswer, d: Disposition): (r: seq<Ref>)
    ensures forall ref :: ref in r <==> ref in targets && DispositionOf(ref, answer(ref)) == d
  {
    if targets == [] then []
    else
      var last := targets[|targets| - 1];
      var before := Sorted(targets[..|targets| - 1], answer, d);
      assert targets == targets[..|targets| - 1] + [last];
      if DispositionOf(last, answer(last)) == d then before + [last] else before
  }

  /** Every message is sent to, dropped or held, and only one of the three, as often as it waits. */
  lemma {:induction false} SortedPartitions(targets: seq<Ref>, answer: Ref -> TargetAnswer)
    ensures multiset(targets)
            == multiset(Sorted(targets, answer, Send))
             + multiset(Sorted(targets, answer, Dropped))
             + multiset(Sorted(targets, answer, Held))
  {
    if targets != [] {
      SortedPartitions(targets[..|targets| - 1], answer);
      assert targets == targets[..|targets| - 1] + [targets[|targets| - 1]];
    }
  }

  method SortTargetsBySwitch(targets: seq<Ref>, answer: Ref -> TargetAnswer)
    returns (send: seq<Ref>, dropped: seq<Ref>, held: seq<Ref>)
    ensures send == Sorted(targets, answer, Send)
    ensures dropped == Sorted(targets, answer, Dropped)
    ensures held == Sorted(targets, answer, Held)
  {
    send, dropped, held := [], [], [];
    for i := 0 to |targets|
      invariant send == Sorted(targets[..i], answer, Send)
      invariant dropped == Sorted(targets[..i], answer, Dropped)
      invariant held == Sorted(targets[..i], answer, Held)
    {
      var ref := targets[i];
      assert targets[..i + 1][..i] == targets[..i];
      if !ref.botKind.DriverBot? {
        send := send + [ref];
      } else {
        match answer(ref).switch
        case SwitchOff => dropped := dropped + [ref];
        case SwitchOn => send := send + [ref];
        case SwitchUnreadable => held := held + [ref];
      }
    }
    assert targets[..|targets|] == targets;
  }

  /** Both cameras in one media group first, then a single video. */
  predicate VideoGoesOut(urls: Urls, answer: TargetAnswer) {
    || (urls.forward.Some? && urls.inward.Some? && answer.dual)
    || (HasUrls(urls) && answer.single)
  }

  predicate GetsVideo(ref: Ref, urls: Urls, answer: TargetAnswer) {
    answer.botReady && VideoGoesOut(urls, answer)
  }

  /** The video first, and only after it the deletion of the text. */
  function FoldIn(ref: Ref, urls: Urls, answer: TargetAnswer): seq<Effect> {
    if !GetsVideo(ref, urls, answer) then []
    else if ref.messageId.Some? && answer.erase then [Post(ref), Erase(ref)]
    else [Post(ref)]
  }

  method ReplaceMessageWithVideo(ref: Ref, urls: Urls, answer: TargetAnswer)
    returns (sent: bool, calls: seq<Effect>)
    requires answer.botReady
    ensures sent == GetsVideo(ref, urls, answer)
    ensures calls == FoldIn(ref, urls, answer)
  {
    sent, calls := false, [];
    if urls.forward.Some? && urls.inward.Some? {
      if answer.dual {
        calls := calls + [Post(ref)];
        sent := true;
      }
    }
    if !sent && (urls.forward.Some? || urls.inward.Some?) {
      if answer.single {
        calls := calls + [Post(ref)];
        sent := true;
      }
    }
    if !sent {
      return;
    }
    if ref.messageId.Some? && answer.erase {
      calls := calls + [Erase(ref)];
    }
  }

  function FoldInAll(targets: seq<Ref>, urls: Urls, answer: Ref -> TargetAnswer): seq<Effect> {
    if targets == [] then []
    else
      var last := targets[|targets| - 1];
      FoldInAll(targets[..|targets| - 1], urls, answer) + FoldIn(last, urls, answer(last))
  }

  /** The messages still without their video. */
  function Missed(targets: seq<Ref>, urls: Urls, answer: Ref -> TargetAnswer): (r: seq<Ref>)
    ensures forall ref :: ref in r <==> ref in targets && !GetsVideo(ref, urls, answer(ref))
  {
    if targets == [] then []
    else
      var last := targets[|targets| - 1];
      var before := Missed(targets[..|targets| - 1], urls, answer);
      assert targets == targets[..|targets| - 1] + [last];
      if GetsVideo(last, urls, answer(last)) then before else before + [last]
  }

  lemma {:induction false} NoUrlsNoVideo(targets: seq<Ref>, urls: Urls, answer: Ref -> TargetAnswer)
    requires !HasUrls(urls)
    ensures Missed(targets, urls, answer) == targets && FoldInAll(targets, urls, answer) == []
  {
    if targets != [] {
      NoUrlsNoVideo(targets[..|targets| - 1], urls, answer);
      assert targets == targets[..|targets| - 1] + [targets[|targets| - 1]];
    }
  }

  method RunVideoBackfill(targets: seq<Ref>, urls: Urls, answer: Ref -> TargetAnswer)
    returns (posted: nat, attempted: nat, failed: seq<Ref>, calls: seq<Effect>)
    ensures failed == Missed(targets, urls, answer)
    ensures calls == FoldInAll(targets, urls, answer)
    ensures posted + |failed| == |targets|
    ensures posted <= attempted <= |targets|
  {
    posted, attempted, failed, calls := 0, 0, [], [];
    if urls.forward.None? && urls.inward.None? {
      NoUrlsNoVideo(targets, urls, answer);
      failed := targets;
      return;
    }
    for i := 0 to |targets|
      invariant failed == Missed(targets[..i], urls, answer)
      invariant calls == FoldInAll(targets[..i], urls, answer)
      invariant posted + |failed| == i
      invariant posted <= attempted <= i
    {
      var ref := targets[i];
      assert targets[..i + 1][..i] == targets[..i];
      if !answer(ref).botReady {
        failed := failed + [ref];
      } else {
        attempted := attempted + 1;
        var ok, made := ReplaceMessageWithVideo(ref, urls, answer(ref));
        calls := calls + made;
        if ok {
          posted := posted + 1;
        } else {
          failed := failed + [ref];
        }
      }
      assert FoldInAll(targets[..i + 1], urls, answer)
             == FoldInAll(targets[..i], urls, answer) + FoldIn(ref, urls, answer(ref));
    }
    assert targets[..|targets|] == targets;
  }
}

/** Where the promises of delivery stop, shown by concrete runs. */
module DeliveryLimits {
  import opened Wrappers
  import opened RecoveryTypes
  import opened VideoBackfill
  import opened Delivery
  import opened DriverSwitch

  /** A call on one notifications group, which takes the message; `lands` says whether the ledger hears of it. */
  function OneGroup(readOk: bool, lands: bool, driver: Option<DriverTarget>): Call {
    Call(readOk, [], "notifications", "Speeding", (k: nat) => Attempt(Sent(Some(7)), lands), driver)
  }

  lemma TargetsOfOneGroup(readOk: bool, lands: bool, driver: Option<DriverTarget>)
    ensures Targets(OneGroup(readOk, lands, driver)) == ["notifications"]
  {}

  lemma OneGroupCall(w: World, readOk: bool, lands: bool, driver: Option<DriverTarget>)
    ensures var call := OneGroup(readOk, lands, driver);
            Notified(w, call) == Visit(Begin(w, readOk), NotificationBot, "notifications", "Speeding",
                                      Attempt(Sent(Some(7)), lands))
  {
    TargetsOfOneGroup(readOk, lands, driver);
    var call := OneGroup(readOk, lands, driver);
    assert VisitFirst(Begin(w, readOk), call, 0) == Begin(w, readOk);
  }

  const GROUP := "notifications"

  lemma OneMoreTry(w: World, tries: seq<Try>, t: Try)
    ensures AfterAll(w, tries + [t]) == After(AfterAll(w, tries), t)
  {
    assert (tries + [t])[..|tries|] == tries;
  }

  /** One call on the group: it gets the message unless the ledger, read, lists it. */
  lemma OneGroupTry(w: World, readOk: bool, lands: bool)
    requires readOk ==> GROUP !in w.table
    ensures var after := After(w, Try(OneGroup(readOk, lands, None), None));
      && after.sends == w.sends + multiset{GROUP}
      && after.failedReads == w.failedReads + (if readOk then 0 else 1)
      && after.lost == (if lands then w.lost else w.lost + multiset{GROUP})
      && (!lands ==> after.table == w.table)
  {
    OneGroupCall(w, readOk, lands, None);
  }

  lemma {:induction false} LostWrites(n: nat) returns (tries: seq<Try>)
    ensures var w := AfterAll(UNTOUCHED, tries);
            w.sends[GROUP] == n && w.lost[GROUP] == n && w.failedReads == 0 && GROUP !in w.table
  {
    if n == 0 {
      tries := [];
    } else {
      tries := LostWrites(n - 1);
      var deaf := Try(OneGroup(true, false, None), None);
      OneMoreTry(UNTOUCHED, tries, deaf);
      OneGroupTry(AfterAll(UNTOUCHED, tries), true, false);
      tries := tries + [deaf];
    }
  }

  /**
    The bound of `AtMostOncePerFault` is reached for every number of faults: as many
    copies as lost writes and failed reads together, and one more.
  */
  lemma {:induction false} EveryFaultCostsAMessage(failedReads: nat, lostWrites: nat) returns (tries: seq<Try>)
    ensures var w := AfterAll(UNTOUCHED, tries);
      && w.sends[GROUP] == 1 + failedReads + lostWrites
      && w.failedReads == failedReads && w.lost[GROUP] == lostWrites
    decreases failedReads
  {
    var before: seq<Try>;
    if failedReads == 0 {
      before := LostWrites(lostWrites);
    } else {
      before := EveryFaultCostsAMessage(failedReads - 1, lostWrites);
    }
    var t := Try(OneGroup(failedReads == 0, true, None), None);
    OneMoreTry(UNTOUCHED, before, t);
    OneGroupTry(AfterAll(UNTOUCHED, before), failedReads == 0, true);
    tries := before + [t];
  }

  function Driver(switch: SwitchAnswer): Option<DriverTarget> {
    Some(DriverTarget("driver", true, switch, "Slow down", Attempt(Sent(Some(8)), true)))
  }

  function Looked(readOk: bool, switch: SwitchAnswer): Try {
    Try(OneGroup(readOk, true, Driver(switch)), None)
  }

  lemma SwitchedOnEndsAtOnce(rest: seq<Try>)
    ensures UntilCommit(UNTOUCHED, [Looked(true, SwitchOn)] + rest).sends["notifications"] == 1
  {
    OneGroupCall(UNTOUCHED, true, true, Driver(SwitchOn));
    assert Returns(UNTOUCHED, Looked(true, SwitchOn));
  }

  lemma UnreadableGoesRoundAgain()
    ensures UntilCommit(UNTOUCHED, [Looked(true, SwitchUnreadable), Looked(false, SwitchOn)])
            .sends["notifications"] == 2
  {
    var stuck, again := Looked(true, SwitchUnreadable), Looked(false, SwitchOn);
    OneGroupCall(UNTOUCHED, true, true, Driver(SwitchUnreadable));
    assert !Returns(UNTOUCHED, stuck);
    var w := After(UNTOUCHED, stuck);
    OneGroupCall(w, false, true, Driver(SwitchOn));
    assert Returns(w, again);
    assert [stuck, again][1..] == [again];
  }

  /**
    The smallest schedule that is not quiet (`DriverSwitchRetries.Quiet`): an unreadable
    switch makes the event go round once more, and if the ledger cannot be read on that
    round the notifications group gets the alert a second time - which it would not have
    with the switch on.
  */
  lemma UnreadableSwitchAndUnreadableLedger()
    ensures var on := [Looked(true, SwitchOn), Looked(false, SwitchOn)];
            var unreadable := [Looked(true, SwitchUnreadable), Looked(false, SwitchOn)];
      && AlikeRuns(on, unreadable, {"driver"})
      && UntilCommit(UNTOUCHED, on).sends["notifications"] == 1
      && UntilCommit(UNTOUCHED, unreadable).sends["notifications"] == 2
  {
    TargetsOfOneGroup(true, true, Driver(SwitchOn));
    TargetsOfOneGroup(false, true, Driver(SwitchOn));
    assert [Looked(true, SwitchOn), Looked(false, SwitchOn)] == [Looked(true, SwitchOn)] + [Looked(false, SwitchOn)];
    SwitchedOnEndsAtOnce([Looked(false, SwitchOn)]);
    UnreadableGoesRoundAgain();
  }
}

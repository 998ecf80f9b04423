/** The emergency page: the alert records, the choice of the alert to cancel,
    and the local state (`loading`, `countdown`, `isEmergency`) that triggering,
    cancelling and the countdown tick move through. Each remote call is an
    outcome parameter; each timer firing is a method call. */
module Sos {
  import opened Wrappers

  datatype AlertStatus = Pending | Resolved | Cancelled

  /** `SOSAlert`, without the user id and creation time, which the page only displays. */
  datatype SosAlert = SosAlert(id: string, location: string, status: AlertStatus)

  /** The countdown a triggered alert starts from. */
  const CountdownStart: nat := 5

  /** Index of the first pending alert; the list arrives newest first, so this is
      the most recent pending alert. */
  function FirstPendingIndex(alerts: seq<SosAlert>): (r: Option<nat>)
    ensures r.None? <==> forall i :: 0 <= i < |alerts| ==> alerts[i].status != Pending
    ensures r.Some? ==> r.value < |alerts| && alerts[r.value].status == Pending
    ensures r.Some? ==> forall i :: 0 <= i < r.value ==> alerts[i].status != Pending
  {
    if alerts == [] then None
    else if alerts[0].status == Pending then Some(0)
    else
      match FirstPendingIndex(alerts[1..])
      case None => None
      case Some(k) => Some(k + 1)
  }

  /** `recentAlerts.find(alert => alert.status === 'pending')`. */
  function FindPending(alerts: seq<SosAlert>): (r: Option<SosAlert>)
    ensures r.None? <==> forall a :: a in alerts ==> a.status != Pending
    ensures r.Some? ==> r.value in alerts && r.value.status == Pending
    ensures r.Some? ==> exists k :: 0 <= k < |alerts| && alerts[k] == r.value
                                    && forall i :: 0 <= i < k ==> alerts[i].status != Pending
  {
    match FirstPendingIndex(alerts)
    case None => None
    case Some(k) => Some(alerts[k])
  }

  lemma {:induction false} FirstPendingSkips(settled: seq<SosAlert>, alerts: seq<SosAlert>)
    requires forall a :: a in settled ==> a.status != Pending
    ensures FirstPendingIndex(settled + alerts)
            == match FirstPendingIndex(alerts) case None => None case Some(k) => Some(k + |settled|)
    decreases |settled|
  {
    if settled == [] {
      assert settled + alerts == alerts;
    } else {
      assert (settled + alerts)[1..] == settled[1..] + alerts;
      assert (settled + alerts)[0] == settled[0];
      FirstPendingSkips(settled[1..], alerts);
    }
  }

  /** Alerts in front that are not pending do not change the choice. */
  lemma FindPendingSkips(settled: seq<SosAlert>, alerts: seq<SosAlert>)
    requires forall a :: a in settled ==> a.status != Pending
    ensures FindPending(settled + alerts) == FindPending(alerts)
  {
    FirstPendingSkips(settled, alerts);
    match FirstPendingIndex(alerts)
    case None =>
    case Some(k) =>
      assert (settled + alerts)[k + |settled|] == alerts[k];
  }

  /** One tick of the countdown interval, which runs only while the countdown is positive. */
  function NextCountdown(c: int): (r: int)
  {
    if c > 0 then c - 1 else c
  }

  /** The countdown after `n` ticks. */
  function AfterTicks(c: int, n: nat): int
    decreases n
  {
    if n == 0 then c else AfterTicks(NextCountdown(c), n - 1)
  }

  /** From a non-negative start, `n` ticks bring the countdown to `max(0, c - n)`:
      it reaches zero and stays there, never below. */
  lemma {:induction false} TicksFloorAtZero(c: nat, n: nat)
    ensures AfterTicks(c, n) == if c >= n then c - n else 0
    decreases n
  {
    if n > 0 {
      TicksFloorAtZero(NextCountdown(c), n - 1);
    }
  }

  /** What `cancelSOS` did: nothing, or the local state was cleared (with or without
      an update for a pending alert), or the update failed. */
  datatype CancelOutcome = Ignored | Cleared(updated: Option<string>) | UpdateFailed(id: string)

  /** The state of the emergency page. */
  class SosPage {
    var isEmergency: bool
    var loading: bool
    var countdown: int
    var recentAlerts: seq<SosAlert>

    ghost predicate Valid()
      reads this
    {
      0 <= countdown <= CountdownStart
    }

    constructor ()
      ensures Valid()
      ensures !isEmergency && !loading && countdown == 0 && recentAlerts == []
    {
      isEmergency := false;
      loading := false;
      countdown := 0;
      recentAlerts := [];
    }

    /** The SOS button is disabled while sending or counting down. */
    predicate SosButtonDisabled()
      reads this
    {
      loading || countdown > 0
    }

    /** The SOS button is shown until an alert is active; the cancel button replaces it. */
    predicate CanTrigger()
      reads this
    {
      !isEmergency && !SosButtonDisabled()
    }

    /** The synchronous start of `triggerSOS`, before the insert. */
    method BeginTrigger(hasUser: bool) returns (started: bool)
      requires Valid()
      modifies this`loading, this`countdown
      ensures Valid()
      ensures started == hasUser
      ensures hasUser ==> loading && countdown == CountdownStart && SosButtonDisabled()
      ensures !hasUser ==> loading == old(loading) && countdown == old(countdown)
    {
      if !hasUser {
        return false;
      }
      loading := true;
      countdown := CountdownStart;
      return true;
    }

    /** The insert's answer: success raises the emergency, failure clears the
        sending state and leaves `isEmergency` as it was. */
    method InsertFinished(insertOk: bool)
      requires Valid()
      modifies this`isEmergency, this`loading, this`countdown
      ensures Valid()
      ensures insertOk ==> isEmergency && loading == old(loading) && countdown == old(countdown)
      ensures !insertOk ==> isEmergency == old(isEmergency) && !loading && countdown == 0
    {
      if insertOk {
        isEmergency := true;
      } else {
        loading := false;
        countdown := 0;
      }
    }

    /** `triggerSOS` with the insert, and after a successful insert the refresh of the
        recent alerts, answered before any tick. */
    method TriggerSOS(hasUser: bool, insertOk: bool, fetchOk: bool, fetchData: Option<seq<SosAlert>>)
      requires Valid()
      modifies this`isEmergency, this`loading, this`countdown, this`recentAlerts
      ensures Valid()
      ensures !hasUser ==> isEmergency == old(isEmergency) && loading == old(loading) && countdown == old(countdown)
      ensures hasUser && insertOk ==> isEmergency && loading && countdown == CountdownStart
      ensures hasUser && !insertOk ==> isEmergency == old(isEmergency) && !loading && countdown == 0
      ensures hasUser && insertOk ==> recentAlerts == if fetchOk then fetchData.GetOr([]) else old(recentAlerts)
      ensures !(hasUser && insertOk) ==> recentAlerts == old(recentAlerts)
    {
      var started := BeginTrigger(hasUser);
      if started {
        InsertFinished(insertOk);
        if insertOk {
          FetchRecentAlerts(fetchOk, fetchData);
        }
      }
    }

    /** The five-second timeout set after a successful insert. */
    method ResponseDelayElapsed()
      requires Valid()
      modifies this`loading, this`countdown
      ensures Valid()
      ensures !loading && countdown == 0 && !SosButtonDisabled()
    {
      countdown := 0;
      loading := false;
    }

    /** One firing of the countdown interval. */
    method Tick()
      requires Valid()
      modifies this`countdown
      ensures Valid()
      ensures countdown == NextCountdown(old(countdown))
    {
      if countdown > 0 {
        countdown := countdown - 1;
      }
    }

    /** `cancelSOS`: needs a user and an active emergency. An update is issued for the
        first pending alert, if any; the state clears unless that update fails, and a
        cleared state is followed by the refresh of the recent alerts. */
    method CancelSOS(hasUser: bool, updateOk: bool, fetchOk: bool, fetchData: Option<seq<SosAlert>>)
      returns (outcome: CancelOutcome)
      requires Valid()
      modifies this`isEmergency, this`countdown, this`recentAlerts
      ensures Valid()
      ensures !hasUser || !old(isEmergency) ==> outcome == Ignored
      ensures hasUser && old(isEmergency) ==>
                match FindPending(old(recentAlerts))
                case None => outcome == Cleared(None)
                case Some(a) => outcome == if updateOk then Cleared(Some(a.id)) else UpdateFailed(a.id)
      ensures outcome.Cleared? ==> !isEmergency && countdown == 0
      ensures !outcome.Cleared? ==> isEmergency == old(isEmergency) && countdown == old(countdown)
      ensures outcome.Cleared? ==> recentAlerts == if fetchOk then fetchData.GetOr([]) else old(recentAlerts)
      ensures !outcome.Cleared? ==> recentAlerts == old(recentAlerts)
    {
      if !hasUser || !isEmergency {
        return Ignored;
      }
      var pendingAlert := FindPending(recentAlerts);
      var updated: Option<string> := None;
      if pendingAlert.Some? {
        if !updateOk {
          return UpdateFailed(pendingAlert.value.id);
        }
        updated := Some(pendingAlert.value.id);
      }
      isEmergency := false;
      countdown := 0;
      outcome := Cleared(updated);
      FetchRecentAlerts(fetchOk, fetchData);
    }

    /** `fetchRecentAlerts`: an error keeps the list, a missing result empties it. */
    method FetchRecentAlerts(ok: bool, data: Option<seq<SosAlert>>)
      modifies this`recentAlerts
      ensures ok ==> recentAlerts == data.GetOr([])
      ensures !ok ==> recentAlerts == old(recentAlerts)
    {
      if ok {
        recentAlerts := data.GetOr([]);
      }
    }
  }

  /** A user action or timer event on the page, with the outcome of its remote call. */
  datatype Event = Trigger(hasUser: bool, insertOk: bool, fetchOk: bool, fetchData: Option<seq<SosAlert>>)
                 | Delay | TickEvent
                 | Cancel(hasUser: bool, updateOk: bool, fetchOk: bool, fetchData: Option<seq<SosAlert>>)
                 | Fetch(ok: bool, data: Option<seq<SosAlert>>)

  /** Whatever events arrive, the countdown stays within 0..5. */
  method RunEvents(page: SosPage, events: seq<Event>)
    requires page.Valid()
    modifies page
    ensures page.Valid()
    ensures 0 <= page.countdown <= CountdownStart
  {
    var k := 0;
    while k < |events|
      invariant 0 <= k <= |events|
      invariant page.Valid()
    {
      match events[k] {
        case Trigger(hasUser, insertOk, fetchOk, fetchData) =>
          if page.CanTrigger() {
            page.TriggerSOS(hasUser, insertOk, fetchOk, fetchData);
          }
        case Delay => page.ResponseDelayElapsed();
        case TickEvent => page.Tick();
        case Cancel(hasUser, updateOk, fetchOk, fetchData) =>
          var _ := page.CancelSOS(hasUser, updateOk, fetchOk, fetchData);
        case Fetch(ok, data) => page.FetchRecentAlerts(ok, data);
      }
      k := k + 1;
    }
  }
}

/**
 * The workday panel: four buttons that stamp the start, the lunch break
 * and the close of the working day, a copy of the stamps kept in local
 * storage under `workdayState_<cedula>`, and the close, which sends the
 * stamps to a webhook and clears them once it gets an answer.
 */
module WorkdayControl {
  import opened Wrappers
  import opened Calendar
  import opened Records
  import opened BrowserStorage
  import opened WorkKeys
  import AuthContext
  import opened WorkContext

  const KeyPrefix: string := "workdayState_"

  /** The panel's storage key: none without a logged-in, non-empty cédula. */
  function WorkdayKey(userCedula: Option<string>): (k: Option<string>)
    ensures k.Some? <==> userCedula.Some? && userCedula.value != ""
    ensures k.Some? ==> |k.value| > |KeyPrefix| && k.value[..|KeyPrefix|] == KeyPrefix && k.value[|KeyPrefix|..] == userCedula.value
  {
    if userCedula.Some? && userCedula.value != "" then Some(KeyPrefix + userCedula.value) else None
  }

  /** The panel's key is neither the login key nor any of the tracker's keys. */
  lemma WorkdayKeyIsForeign(userCedula: Option<string>, user: Option<string>, suffix: string)
    requires WorkdayKey(userCedula).Some?
    ensures WorkdayKey(userCedula).value != AuthContext.UserKey
    ensures WorkdayKey(userCedula).value != StorageKey(user, suffix)
  {
    var k := WorkdayKey(userCedula).value;
    assert k[0] == 'w' && k[4] == 'd';
    assert AuthContext.UserKey[0] == 'u';
    assert StorageKey(user, suffix)[4] == '_';
  }

  /** The stamps the panel starts from: the saved ones, or none. */
  function InitialWorkday(items: map<string, Value>, key: Option<string>): Workday
  {
    if key.Some? && key.value in items && items[key.value].WorkdayValue? then items[key.value].workday
    else ClearedWorkday
  }

  /** A workday is saved only while one of the start or lunch stamps is set. */
  predicate Persists(w: Workday)
  {
    w.startTime.Some? || w.lunchStart.Some? || w.lunchEnd.Some?
  }

  /** The storage after the save effect has run on `w`. */
  function Persisted(items: map<string, Value>, key: Option<string>, w: Workday): map<string, Value>
  {
    if key.Some? && Persists(w) then items[key.value := WorkdayValue(w)] else items
  }

  /**
   * Stamps the save effect wrote are the ones the next mount starts from;
   * without a logged-in cédula the panel neither reads nor writes storage.
   */
  lemma SaveThenRemount(items: map<string, Value>, key: Option<string>, w: Workday)
    ensures key.Some? && Persists(w) ==> InitialWorkday(Persisted(items, key, w), key) == w
    ensures key.None? ==> InitialWorkday(items, key) == ClearedWorkday && Persisted(items, key, w) == items
  {
  }

  /** The save that runs when the panel mounts writes back what it read, so storage is unchanged. */
  lemma MountPersistRewritesNothing(items: map<string, Value>, key: Option<string>)
    ensures Persisted(items, key, InitialWorkday(items, key)) == items
  {
    var w := InitialWorkday(items, key);
    if key.Some? && Persists(w) {
      assert w != ClearedWorkday;
      assert items[key.value := WorkdayValue(w)] == items;
    }
  }

  // Which buttons are enabled.

  predicate StartEnabled(w: Workday, isWorking: bool)
  {
    w.startTime.None? && !isWorking
  }

  predicate LunchEnabled(w: Workday)
  {
    w.startTime.Some? && w.lunchStart.None?
  }

  predicate EndLunchEnabled(w: Workday)
  {
    w.lunchStart.Some? && w.lunchEnd.None?
  }

  predicate CloseEnabled(w: Workday)
  {
    w.startTime.Some?
  }

  datatype Button = StartDay | StartLunch | EndLunch | CloseDay(answered: bool)

  /** A click on a button at minute `at` of the day, while the tracker is or is not working. */
  datatype Press = Press(button: Button, at: Minute, isWorking: bool)

  predicate Enabled(w: Workday, p: Press)
  {
    match p.button
    case StartDay => StartEnabled(w, p.isWorking)
    case StartLunch => LunchEnabled(w)
    case EndLunch => EndLunchEnabled(w)
    case CloseDay(_) => CloseEnabled(w)
  }

  /**
   * The stamps after a click: a disabled button does nothing; a close that
   * is answered clears every stamp, one that is not keeps the close stamp.
   */
  function Pressed(w: Workday, p: Press): Workday
  {
    if !Enabled(w, p) then w
    else match p.button
      case StartDay => w.(startTime := Some(p.at))
      case StartLunch => w.(lunchStart := Some(p.at))
      case EndLunch => w.(lunchEnd := Some(p.at))
      case CloseDay(answered) => if answered then ClearedWorkday else w.(endTime := Some(p.at))
  }

  /** Once set, the start and lunch stamps are never overwritten, only cleared by an answered close. */
  lemma StampsStick(w: Workday, p: Press)
    ensures var r := Pressed(w, p);
      || r == ClearedWorkday
      || (&& (w.startTime.Some? ==> r.startTime == w.startTime)
          && (w.lunchStart.Some? ==> r.lunchStart == w.lunchStart)
          && (w.lunchEnd.Some? ==> r.lunchEnd == w.lunchEnd))
    ensures Pressed(w, p) == ClearedWorkday && w != ClearedWorkday ==> p.button == CloseDay(true) && CloseEnabled(w)
  {
  }

  /** Lunch ends only after it started, and starts only after the day started. */
  predicate Chained(w: Workday)
  {
    (w.lunchEnd.Some? ==> w.lunchStart.Some?) && (w.lunchStart.Some? ==> w.startTime.Some?)
  }

  /** Whatever the clicks, from no stamps or any chained stamps, the chain holds. */
  lemma {:induction false} RunKeepsChain(w: Workday, ps: seq<Press>)
    requires Chained(w)
    ensures Chained(Run(w, ps))
    decreases |ps|
  {
    if ps != [] {
      assert Chained(Pressed(w, ps[0]));
      RunKeepsChain(Pressed(w, ps[0]), ps[1..]);
    }
  }

  /**
   * The stamps are in order: lunch ends only after it starts, it starts
   * only after the day starts, and the day closes only after it starts.
   */
  predicate Ordered(w: Workday)
  {
    && (w.lunchStart.Some? ==> w.startTime.Some? && w.startTime.value <= w.lunchStart.value)
    && (w.lunchEnd.Some? ==> w.lunchStart.Some? && w.lunchStart.value <= w.lunchEnd.value)
    && (w.endTime.Some? ==> w.startTime.Some? && w.startTime.value <= w.endTime.value)
  }

  /** No stamp is later than `now`. */
  predicate StampedBy(w: Workday, now: Minute)
  {
    && (w.startTime.Some? ==> w.startTime.value <= now)
    && (w.lunchStart.Some? ==> w.lunchStart.value <= now)
    && (w.lunchEnd.Some? ==> w.lunchEnd.value <= now)
    && (w.endTime.Some? ==> w.endTime.value <= now)
  }

  /** The clicks applied one after another. */
  function Run(w: Workday, ps: seq<Press>): Workday
    decreases |ps|
  {
    if ps == [] then w else Run(Pressed(w, ps[0]), ps[1..])
  }

  /** Clicks made in time order, none earlier than `now`. */
  predicate Chronological(ps: seq<Press>, now: Minute)
  {
    && (forall i :: 0 <= i < |ps| ==> now <= ps[i].at)
    && (forall i, j :: 0 <= i < j < |ps| ==> ps[i].at <= ps[j].at)
  }

  /** One enabled-or-not click keeps the stamps ordered and no later than itself. */
  lemma PressedKeepsOrder(w: Workday, p: Press, now: Minute)
    requires Ordered(w) && StampedBy(w, now) && now <= p.at
    ensures Ordered(Pressed(w, p)) && StampedBy(Pressed(w, p), p.at)
  {
  }

  /** Clicks made in time order, through the enabled buttons only, keep the stamps in order. */
  lemma {:induction false} RunKeepsOrder(w: Workday, ps: seq<Press>, now: Minute)
    requires Ordered(w) && StampedBy(w, now) && Chronological(ps, now)
    ensures Ordered(Run(w, ps))
    decreases |ps|
  {
    if ps != [] {
      PressedKeepsOrder(w, ps[0], now);
      assert Chronological(ps[1..], ps[0].at) by {
        forall i | 0 <= i < |ps[1..]|
          ensures ps[0].at <= ps[1..][i].at
        {
          assert ps[1..][i] == ps[i + 1];
        }
      }
      RunKeepsOrder(Pressed(w, ps[0]), ps[1..], ps[0].at);
    }
  }

  /** Each stamp a click leaves is either one it found or the click's own minute. */
  lemma {:induction false} RunStampedBy(w: Workday, ps: seq<Press>, at: Minute)
    requires StampedBy(w, at)
    requires forall i :: 0 <= i < |ps| ==> ps[i].at <= at
    ensures StampedBy(Run(w, ps), at)
    decreases |ps|
  {
    if ps != [] {
      assert ps[0].at <= at;
      assert StampedBy(Pressed(w, ps[0]), at);
      forall i | 0 <= i < |ps[1..]|
        ensures ps[1..][i].at <= at
      {
        assert ps[1..][i] == ps[i + 1];
      }
      RunStampedBy(Pressed(w, ps[0]), ps[1..], at);
    }
  }

  /**
   * The click model and the panel's handlers agree: an enabled button
   * stamps its own field with the click's minute, and an enabled close is
   * the close outcome for the webhook's delivery.
   */
  lemma HandlersArePresses(w: Workday, at: Minute, isWorking: bool, delivery: Delivery)
    ensures StartEnabled(w, isWorking) ==> Pressed(w, Press(StartDay, at, isWorking)) == w.(startTime := Some(at))
    ensures LunchEnabled(w) ==> Pressed(w, Press(StartLunch, at, isWorking)) == w.(lunchStart := Some(at))
    ensures EndLunchEnabled(w) ==> Pressed(w, Press(EndLunch, at, isWorking)) == w.(lunchEnd := Some(at))
    ensures CloseEnabled(w) ==> Pressed(w, Press(CloseDay(delivery.Responded?), at, isWorking)) == ClosedWorkday(w, at, delivery)
  {
  }

  /** An unguarded lunch click with no start stamp breaks the chain, which the enablement rules prevent. */
  lemma UnguardedLunchBreaksChain()
    ensures !Chained(ClearedWorkday.(lunchStart := Some(600)))
    ensures Pressed(ClearedWorkday, Press(StartLunch, 600, false)) == ClearedWorkday
  {
  }

  // Closing the day.

  /** The webhook's answer: any HTTP response, or none (the request throws). */
  datatype Delivery = Responded(status: int) | Unreachable

  /** What the close sends: the cédula and the stamps it had, with the close stamp. */
  datatype Submission = Submission(
    cedula: Option<string>,
    startTime: Option<Minute>,
    lunchStart: Option<Minute>,
    lunchEnd: Option<Minute>,
    endTime: Minute)

  function CloseBody(userCedula: Option<string>, w: Workday, at: Minute): Submission
  {
    Submission(userCedula, w.startTime, w.lunchStart, w.lunchEnd, at)
  }

  /**
   * What the webhook gets after a day of clicks in time order from no
   * stamps, closed no earlier than the last click: a start stamp, and the
   * lunch start, lunch end and close in order after it wherever present.
   */
  lemma CloseBodyOrdered(userCedula: Option<string>, ps: seq<Press>, now: Minute, at: Minute)
    requires Chronological(ps, now) && now <= at
    requires forall i :: 0 <= i < |ps| ==> ps[i].at <= at
    requires CloseEnabled(Run(ClearedWorkday, ps))
    ensures var b := CloseBody(userCedula, Run(ClearedWorkday, ps), at);
      && b.cedula == userCedula && b.endTime == at
      && b.startTime.Some? && b.startTime.value <= at
      && (b.lunchStart.Some? ==> b.startTime.value <= b.lunchStart.value <= at)
      && (b.lunchEnd.Some? ==> b.lunchStart.Some? && b.lunchStart.value <= b.lunchEnd.value <= at)
  {
    RunKeepsOrder(ClearedWorkday, ps, now);
    RunStampedBy(ClearedWorkday, ps, at);
  }

  /**
   * The corrected tracker and the panel act for the same login: both have
   * a user exactly when the cédula is non-empty, and both key it by that
   * cédula.
   */
  lemma TrackerAndPanelShareLogin(userCedula: Option<string>, suffix: string)
    ensures SessionUser(userCedula).Some? <==> WorkdayKey(userCedula).Some?
    ensures SessionUser(userCedula).Some? ==>
      && WorkdayKey(userCedula).value == KeyPrefix + userCedula.value
      && StorageKey(SessionUser(userCedula), suffix) == "work_" + userCedula.value + "_" + suffix
  {
  }

  /** The stamps after a close at `at`: cleared once the webhook answered, else kept with the close stamp. */
  function ClosedWorkday(w: Workday, at: Minute, delivery: Delivery): Workday
  {
    if delivery.Responded? then ClearedWorkday else w.(endTime := Some(at))
  }

  /**
   * The storage after a close: the stamped workday is saved while the
   * request is pending, then removed if the webhook answered.
   */
  function ClosedItems(items: map<string, Value>, key: Option<string>, w: Workday, at: Minute, delivery: Delivery): map<string, Value>
  {
    var pending := Persisted(items, key, w.(endTime := Some(at)));
    if delivery.Responded? && key.Some? then pending - {key.value} else pending
  }

  /**
   * An answered close, whatever its status, removes the saved workday and
   * nothing else; an unanswered one leaves it saved with the close stamp.
   */
  lemma CloseOutcome(items: map<string, Value>, key: Option<string>, w: Workday, at: Minute, delivery: Delivery)
    requires key.Some? && CloseEnabled(w)
    ensures var r := ClosedItems(items, key, w, at, delivery);
      if delivery.Responded? then
        && r == items - {key.value}
        && InitialWorkday(r, key) == ClearedWorkday
        && ClosedWorkday(w, at, delivery) == ClearedWorkday
        && Persisted(r, key, ClosedWorkday(w, at, delivery)) == r
      else
        && r == items[key.value := WorkdayValue(w.(endTime := Some(at)))]
        && InitialWorkday(r, key) == ClosedWorkday(w, at, delivery)
  {
    if delivery.Responded? {
      var r := ClosedItems(items, key, w, at, delivery);
      assert r == items - {key.value};
    }
  }

  /** The panel, over the login store's cédula and the shared local storage. */
  class Panel {
    const userCedula: Option<string>
    const storageKey: Option<string>
    const storage: LocalStorage
    var workday: Workday

    /** Mounting: read the saved stamps, then run the save effect once. */
    constructor (auth: AuthContext.AuthProvider, storage: LocalStorage)
      modifies storage
      ensures userCedula == auth.userCedula && storageKey == WorkdayKey(auth.userCedula)
      ensures this.storage == storage
      ensures workday == InitialWorkday(old(storage.items), storageKey)
      ensures storage.items == old(storage.items)
    {
      userCedula := auth.userCedula;
      storageKey := WorkdayKey(auth.userCedula);
      this.storage := storage;
      workday := InitialWorkday(storage.items, WorkdayKey(auth.userCedula));
      new;
      MountPersistRewritesNothing(storage.items, storageKey);
      SaveEffect();
    }

    /** The effect that saves the stamps after each change. */
    method SaveEffect()
      modifies storage
      ensures storage.items == Persisted(old(storage.items), storageKey, workday)
    {
      if storageKey.Some? {
        if workday.startTime.Some? || workday.lunchStart.Some? || workday.lunchEnd.Some? {
          storage.SetItem(storageKey.value, WorkdayValue(workday));
        }
      }
    }

    /** "Iniciar": stamp the start and start the tracker's session. */
    method HandleStartWorkday(tracker: WorkProvider, clock: Clock)
      requires tracker.storage == storage
      modifies this, tracker, storage
      ensures workday == old(workday).(startTime := Some(MinuteOf(clock)))
      ensures StartEnabled(old(workday), old(tracker.isWorking)) ==>
        workday == Pressed(old(workday), Press(StartDay, MinuteOf(clock), old(tracker.isWorking)))
      ensures var after := Started(tracker.user, old(tracker.State()), clock);
        && tracker.State() == after.(items := storage.items)
        && storage.items == Persisted(after.items, storageKey, workday)
    {
      workday := workday.(startTime := Some(MinuteOf(clock)));
      tracker.StartWork(clock);
      SaveEffect();
    }

    /** "Almuerzo": stamp the start of lunch. */
    method HandleStartLunch(clock: Clock)
      modifies this, storage
      ensures workday == old(workday).(lunchStart := Some(MinuteOf(clock)))
      ensures LunchEnabled(old(workday)) ==> workday == Pressed(old(workday), Press(StartLunch, MinuteOf(clock), false))
      ensures storage.items == Persisted(old(storage.items), storageKey, workday)
    {
      workday := workday.(lunchStart := Some(MinuteOf(clock)));
      SaveEffect();
    }

    /** "Fin Almuerzo": stamp the end of lunch. */
    method HandleEndLunch(clock: Clock)
      modifies this, storage
      ensures workday == old(workday).(lunchEnd := Some(MinuteOf(clock)))
      ensures EndLunchEnabled(old(workday)) ==> workday == Pressed(old(workday), Press(EndLunch, MinuteOf(clock), false))
      ensures storage.items == Persisted(old(storage.items), storageKey, workday)
    {
      workday := workday.(lunchEnd := Some(MinuteOf(clock)));
      SaveEffect();
    }

    /**
     * "Cerrar": stamp the close, end the tracker's session, and return what
     * is posted to the webhook; `delivery` is how the post went.
     */
    method HandleEndWorkday(tracker: WorkProvider, clock: Clock, delivery: Delivery) returns (body: Submission)
      requires tracker.storage == storage
      modifies this, tracker, storage
      ensures body == CloseBody(userCedula, old(workday), MinuteOf(clock))
      ensures workday == ClosedWorkday(old(workday), MinuteOf(clock), delivery)
      ensures CloseEnabled(old(workday)) ==>
        workday == Pressed(old(workday), Press(CloseDay(delivery.Responded?), MinuteOf(clock), false))
      ensures var after := Ended(tracker.user, old(tracker.State()), clock);
        && tracker.State() == after.(items := storage.items)
        && storage.items == ClosedItems(after.items, storageKey, old(workday), MinuteOf(clock), delivery)
    {
      var time := MinuteOf(clock);
      var sent := workday;
      workday := workday.(endTime := Some(time));
      tracker.EndWork(clock);
      SaveEffect();
      body := Submission(userCedula, sent.startTime, sent.lunchStart, sent.lunchEnd, time);
      if delivery.Responded? {
        workday := ClearedWorkday;
        if storageKey.Some? {
          storage.RemoveItem(storageKey.value);
        }
        SaveEffect();
      }
    }
  }

}

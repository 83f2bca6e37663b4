/** The geofence transition handler: `ReceiveTransitionsIntentService.onHandleIntent`
    and the date-window test it applies before firing a stored notification.

    The Android plumbing is replaced by values: the triggering event is a datatype,
    the notification store a read-only map, the clock a millisecond reading passed
    in, the date parser a partial function, the calls to `notify` a sequence and the
    broadcast intent the `Outcome` it would carry. */
module ReceiveTransitions {
  import opened Wrappers
  import opened Decimal
  import opened WallClock

  newtype int32 = x: int | -0x8000_0000 <= x < 0x8000_0000

  /** `Geofence.GEOFENCE_TRANSITION_*` of the location services API. */
  const GeofenceTransitionEnter: int32 := 1
  const GeofenceTransitionExit: int32 := 2
  const GeofenceTransitionDwell: int32 := 4

  const LocationErrorPrefix: string := "Location Services error: "
  const TransitionErrorPrefix: string := "Geofence transition error: "

  /** A Java `String` reference as the handler sees it. `s != ""` compares
      references, so only the interned empty literal fails it: an empty string
      built at run time (`Chars("")`) passes. Concatenating `null` yields "null". */
  datatype JavaString = Null | EmptyLiteral | Chars(text: string)

  /** The characters a Java string concatenation takes from `s`. */
  function Text(s: JavaString): string {
    match s
    case Null => "null"
    case EmptyLiteral => ""
    case Chars(t) => t
  }

  /** Java's `s != ""`. */
  predicate NotEmptyLiteral(s: JavaString) {
    !s.EmptyLiteral?
  }

  /** The part of a stored notification the handler reads. */
  datatype Notification = Notification(
    byDate: bool,
    since: JavaString,
    until: JavaString,
    time: JavaString,
    preTimeRange: int32)

  /** A stored geofence configuration; `notification == None` is a null payload. */
  datatype GeoNotification = GeoNotification(
    id: string,
    notification: Option<Notification>,
    transitionType: int32)

  /** What `GeofencingEvent.fromIntent` exposes: the error flag and code, the
      transition kind and the request ids of the triggering geofences, in order. */
  datatype GeofencingEvent = GeofencingEvent(
    hasError: bool,
    errorCode: int32,
    transitionType: int32,
    ids: seq<string>)

  /** The extra put on the broadcast intent: an "error" string, the
      "transitionData" list (also handed to `onTransitionReceived`), or none. */
  datatype Extras = ErrorExtra(error: string) | TransitionData(geoNotifications: seq<GeoNotification>) | NoExtras

  /** Either the broadcast is sent with its extras, or the handler threw before
      reaching `sendBroadcast`. */
  datatype Outcome = Broadcast(extras: Extras) | Aborted

  /** Everything one call produces: the outcome and the payloads passed to `notify`, in call order. */
  datatype Dispatch = Dispatch(outcome: Outcome, notified: seq<Notification>)

  /** Per stored payload: notify it, pass over it, or throw a NullPointerException. */
  datatype Decision = Fire | Skip | Crash

  /** The input a stored configuration's payload is checked against. */
  datatype Context = Context(
    store: map<string, GeoNotification>,
    transitionType: int32,
    today: int,
    parse: string -> Option<int>)

  function LocationServicesError(errorCode: int32): string {
    LocationErrorPrefix + IntToString(errorCode as int)
  }

  function TransitionError(transitionType: int32): string {
    TransitionErrorPrefix + IntToString(transitionType as int)
  }

  predicate IsEnterOrExit(transitionType: int32) {
    transitionType == GeofenceTransitionEnter || transitionType == GeofenceTransitionExit
  }

  /** The emptiness guard on the three window fields. */
  predicate WindowFieldsSet(p: Notification) {
    NotEmptyLiteral(p.since) && NotEmptyLiteral(p.until) && NotEmptyLiteral(p.time)
  }

  /** The text parsed for the start of the window, with the midnight fallback
      taken when `time` is the empty literal. */
  function SinceText(p: Notification): string {
    if NotEmptyLiteral(p.time) then Text(p.since) + " " + Text(p.time)
    else Text(p.since) + " 00:00"
  }

  /** The text parsed for the end of the window: the last minute of `until`. */
  function UntilText(p: Notification): string {
    Text(p.until) + " 23:59"
  }

  /** The window test `today.before(since) && since.before(futureDate) &&
      until.after(today)` over dates that may be null (`None`): dereferencing a
      null date throws, and `&&` stops at the first false operand. */
  function DateWindow(today: int, since: Option<int>, until: Option<int>, futureDate: int): Decision {
    if since.None? then Crash
    else if !(today < since.value) then Skip
    else if !(since.value < futureDate) then Skip
    else if until.None? then Crash
    else if today < until.value then Fire
    else Skip
  }

  /** Whether a non-null payload is notified when its fence triggers at `today`.
      The end date is parsed only when the start date parsed. */
  function Decide(p: Notification, today: int, parse: string -> Option<int>): Decision {
    if !p.byDate then Fire
    else if !WindowFieldsSet(p) then Skip
    else
      var since := parse(SinceText(p));
      var until := if since.Some? then parse(UntilText(p)) else None;
      DateWindow(today, since, until, AddDays(today, p.preTimeRange as int))
  }

  /** The stored configuration, with its transition type overwritten. */
  function Stamp(g: GeoNotification, transitionType: int32): GeoNotification {
    g.(transitionType := transitionType)
  }

  /** What one triggered id adds to the collected list. */
  function Listing(c: Context, id: string): seq<GeoNotification> {
    if id in c.store then [Stamp(c.store[id], c.transitionType)] else []
  }

  /** What one triggered id adds to the notify calls. */
  function Firing(c: Context, id: string): seq<Notification> {
    if id in c.store && c.store[id].notification.Some?
       && Decide(c.store[id].notification.value, c.today, c.parse) == Fire
    then [c.store[id].notification.value]
    else []
  }

  /** Whether the handler throws while processing this id. */
  predicate CrashesOn(c: Context, id: string) {
    id in c.store && c.store[id].notification.Some?
    && Decide(c.store[id].notification.value, c.today, c.parse) == Crash
  }

  /** The collected list for a run of triggered ids. */
  function Lookups(c: Context, ids: seq<string>): seq<GeoNotification> {
    if ids == [] then [] else Listing(c, ids[0]) + Lookups(c, ids[1..])
  }

  /** The notify calls for a run of triggered ids. */
  function Fired(c: Context, ids: seq<string>): seq<Notification> {
    if ids == [] then [] else Firing(c, ids[0]) + Fired(c, ids[1..])
  }

  predicate NoCrash(c: Context, ids: seq<string>) {
    forall k :: 0 <= k < |ids| ==> !CrashesOn(c, ids[k])
  }

  /** The position of the first id whose processing throws. */
  function FirstCrash(c: Context, ids: seq<string>): (k: nat)
    requires !NoCrash(c, ids)
    ensures k < |ids| && CrashesOn(c, ids[k]) && NoCrash(c, ids[..k])
  {
    if CrashesOn(c, ids[0]) then 0
    else
      assert !NoCrash(c, ids[1..]) by {
        var j :| 0 <= j < |ids| && CrashesOn(c, ids[j]);
        assert ids[1..][j - 1] == ids[j];
      }
      FirstCrash(c, ids[1..]) + 1
  }

  function ContextOf(e: GeofencingEvent, store: map<string, GeoNotification>, nowMillis: int,
                     parse: string -> Option<int>): Context
  {
    Context(store, e.transitionType, TruncateToMinute(nowMillis), parse)
  }

  /** What `onHandleIntent` produces for an event, a store, a clock reading and a parser. */
  function Handle(e: GeofencingEvent, store: map<string, GeoNotification>, nowMillis: int,
                  parse: string -> Option<int>): Dispatch
  {
    if e.hasError then
      Dispatch(Broadcast(ErrorExtra(LocationServicesError(e.errorCode))), [])
    else if !IsEnterOrExit(e.transitionType) then
      Dispatch(Broadcast(ErrorExtra(TransitionError(e.transitionType))), [])
    else
      var c := ContextOf(e, store, nowMillis, parse);
      if NoCrash(c, e.ids) then
        var listed := Lookups(c, e.ids);
        Dispatch(Broadcast(if |listed| > 0 then TransitionData(listed) else NoExtras), Fired(c, e.ids))
      else
        Dispatch(Aborted, Fired(c, e.ids[..FirstCrash(c, e.ids)]))
  }

  lemma {:induction false} LookupsConcat(c: Context, a: seq<string>, b: seq<string>)
    ensures Lookups(c, a + b) == Lookups(c, a) + Lookups(c, b)
  {
    if a == [] {
      assert a + b == b;
    } else {
      assert (a + b)[1..] == a[1..] + b;
      LookupsConcat(c, a[1..], b);
    }
  }

  lemma {:induction false} FiredConcat(c: Context, a: seq<string>, b: seq<string>)
    ensures Fired(c, a + b) == Fired(c, a) + Fired(c, b)
  {
    if a == [] {
      assert a + b == b;
    } else {
      assert (a + b)[1..] == a[1..] + b;
      FiredConcat(c, a[1..], b);
    }
  }

  /** A crash right after a crash-free prefix is the first one. */
  lemma {:induction false} FirstCrashAt(c: Context, ids: seq<string>, i: nat)
    requires i < |ids| && NoCrash(c, ids[..i]) && CrashesOn(c, ids[i])
    ensures !NoCrash(c, ids) && FirstCrash(c, ids) == i
    decreases i
  {
    if i > 0 {
      assert ids[..i][0] == ids[0];
      assert ids[1..][i - 1] == ids[i];
      assert ids[1..][..i - 1] == ids[..i][1..];
      FirstCrashAt(c, ids[1..], i - 1);
    }
  }

  /** The dated branch of the handler for one payload: the guard, then the
      nullable dates assigned inside the `try` block (a failed parse leaves its date
      and every later one null), then the window test. */
  method CheckDateWindow(p: Notification, nowMillis: int, parse: string -> Option<int>)
    returns (decision: Decision)
    requires p.byDate
    ensures decision == Decide(p, TruncateToMinute(nowMillis), parse)
  {
    decision := Skip;
    if NotEmptyLiteral(p.since) && NotEmptyLiteral(p.until) && NotEmptyLiteral(p.time) {
      var today := TruncateToMinute(nowMillis);
      var geofenceSinceDate: Option<int> := None;
      var geofenceUntilDate: Option<int> := None;
      var futureDate := AddDays(today, p.preTimeRange as int);
      geofenceSinceDate := parse(SinceText(p));
      if geofenceSinceDate.Some? {
        geofenceUntilDate := parse(UntilText(p));
      }
      decision := DateWindow(today, geofenceSinceDate, geofenceUntilDate, futureDate);
    }
  }

  /** The handler. The loop keeps the collected list, the notify calls made so
      far and the absence of a crash in step with the specification on the ids
      processed so far. */
  method OnHandleIntent(event: GeofencingEvent, store: map<string, GeoNotification>, nowMillis: int,
                        parse: string -> Option<int>)
    returns (outcome: Outcome, notified: seq<Notification>)
    ensures Dispatch(outcome, notified) == Handle(event, store, nowMillis, parse)
  {
    notified := [];
    if event.hasError {
      var error := LocationErrorPrefix + IntToString(event.errorCode as int);
      outcome := Broadcast(ErrorExtra(error));
      return;
    }
    var transitionType := event.transitionType;
    if !(transitionType == GeofenceTransitionEnter || transitionType == GeofenceTransitionExit) {
      var error := TransitionErrorPrefix + IntToString(transitionType as int);
      outcome := Broadcast(ErrorExtra(error));
      return;
    }
    ghost var c := ContextOf(event, store, nowMillis, parse);
    var triggerList := event.ids;
    var geoNotifications: seq<GeoNotification> := [];
    var i := 0;
    while i < |triggerList|
      invariant 0 <= i <= |triggerList|
      invariant geoNotifications == Lookups(c, triggerList[..i])
      invariant notified == Fired(c, triggerList[..i])
      invariant NoCrash(c, triggerList[..i])
    {
      var fenceId := triggerList[i];
      assert triggerList[..i + 1] == triggerList[..i] + [fenceId];
      LookupsConcat(c, triggerList[..i], [fenceId]);
      FiredConcat(c, triggerList[..i], [fenceId]);
      if fenceId in store {
        var geoNotification := store[fenceId];
        if geoNotification.notification.Some? {
          var p := geoNotification.notification.value;
          var decision := Fire;
          if p.byDate {
            decision := CheckDateWindow(p, nowMillis, parse);
          }
          if decision == Crash {
            FirstCrashAt(c, triggerList, i);
            outcome := Aborted;
            return;
          } else if decision == Fire {
            notified := notified + [p];
          }
          assert Firing(c, fenceId) == if decision == Fire then [p] else [];
        }
        geoNotification := geoNotification.(transitionType := transitionType);
        geoNotifications := geoNotifications + [geoNotification];
        assert Listing(c, fenceId) == [geoNotification];
      }
      i := i + 1;
    }
    assert triggerList[..i] == triggerList;
    if |geoNotifications| > 0 {
      outcome := Broadcast(TransitionData(geoNotifications));
    } else {
      outcome := Broadcast(NoExtras);
    }
  }
}

/** Properties of the geofence transition handler: the two error broadcasts, the
    collected list, the notify calls, and the date-window decision. */
module TransitionProperties {
  import opened Wrappers
  import opened Decimal
  import opened WallClock
  import opened ReceiveTransitions

  // ---------------------------------------------------------------------------
  // Error broadcasts

  /** An event carrying an error is answered with "Location Services error: " and
      the code, which can be read back from the message. Nothing is notified, and
      neither the store, the clock nor the parser is consulted. */
  lemma LocationErrorReported(e: GeofencingEvent,
                              store: map<string, GeoNotification>, nowMillis: int, parse: string -> Option<int>,
                              store': map<string, GeoNotification>, nowMillis': int, parse': string -> Option<int>)
    requires e.hasError
    ensures var d := Handle(e, store, nowMillis, parse);
      && d == Handle(e, store', nowMillis', parse')
      && d.notified == []
      && d.outcome == Broadcast(ErrorExtra(LocationErrorPrefix + IntToString(e.errorCode as int)))
      && ParseInt(d.outcome.extras.error[|LocationErrorPrefix|..]) == Some(e.errorCode as int)
  {
    var msg := LocationErrorPrefix + IntToString(e.errorCode as int);
    assert msg[|LocationErrorPrefix|..] == IntToString(e.errorCode as int);
    IntToStringRoundTrip(e.errorCode as int);
  }

  /** Two failing events with different error codes broadcast different errors. */
  lemma LocationErrorsDistinguishCodes(e1: GeofencingEvent, e2: GeofencingEvent,
                                       store: map<string, GeoNotification>, nowMillis: int, parse: string -> Option<int>)
    requires e1.hasError && e2.hasError && e1.errorCode != e2.errorCode
    ensures Handle(e1, store, nowMillis, parse).outcome != Handle(e2, store, nowMillis, parse).outcome
  {
    var s1 := IntToString(e1.errorCode as int);
    var s2 := IntToString(e2.errorCode as int);
    if LocationErrorPrefix + s1 == LocationErrorPrefix + s2 {
      assert s1 == (LocationErrorPrefix + s1)[|LocationErrorPrefix|..];
      assert s2 == (LocationErrorPrefix + s2)[|LocationErrorPrefix|..];
      IntToStringInjective(e1.errorCode as int, e2.errorCode as int);
    }
  }

  /** A transition other than ENTER or EXIT (a DWELL, say) is answered with
      "Geofence transition error: " and the transition type; nothing is notified,
      and the store, the clock and the parser are not consulted. */
  lemma TransitionErrorReported(e: GeofencingEvent,
                                store: map<string, GeoNotification>, nowMillis: int, parse: string -> Option<int>,
                                store': map<string, GeoNotification>, nowMillis': int, parse': string -> Option<int>)
    requires !e.hasError && e.transitionType != GeofenceTransitionEnter && e.transitionType != GeofenceTransitionExit
    ensures var d := Handle(e, store, nowMillis, parse);
      && d == Handle(e, store', nowMillis', parse')
      && d.notified == []
      && d.outcome == Broadcast(ErrorExtra(TransitionErrorPrefix + IntToString(e.transitionType as int)))
      && ParseInt(d.outcome.extras.error[|TransitionErrorPrefix|..]) == Some(e.transitionType as int)
  {
    var msg := TransitionErrorPrefix + IntToString(e.transitionType as int);
    assert msg[|TransitionErrorPrefix|..] == IntToString(e.transitionType as int);
    IntToStringRoundTrip(e.transitionType as int);
  }

  /** A DWELL transition is answered with "Geofence transition error: 4". */
  lemma DwellReported(e: GeofencingEvent, store: map<string, GeoNotification>, nowMillis: int,
                      parse: string -> Option<int>)
    requires !e.hasError && e.transitionType == GeofenceTransitionDwell
    ensures Handle(e, store, nowMillis, parse) == Dispatch(Broadcast(ErrorExtra("Geofence transition error: 4")), [])
  {
    assert e.transitionType as int == 4;
    assert IntToString(4) == "4";
    assert TransitionErrorPrefix + "4" == "Geofence transition error: 4";
  }

  // ---------------------------------------------------------------------------
  // The collected list

  /** The list is empty exactly when no triggered id has a stored configuration. */
  lemma {:induction false} LookupsEmptyIff(c: Context, ids: seq<string>)
    ensures Lookups(c, ids) == [] <==> forall k :: 0 <= k < |ids| ==> ids[k] !in c.store
  {
    if ids != [] {
      LookupsEmptyIff(c, ids[1..]);
      if ids[0] !in c.store {
        forall k | 0 < k < |ids| ensures ids[k] == ids[1..][k - 1] { }
      }
    }
  }

  /** `g` is the stored configuration of one of `ids`, stamped with the transition type. */
  ghost predicate StampedConfigOf(c: Context, ids: seq<string>, g: GeoNotification) {
    exists j :: 0 <= j < |ids| && ids[j] in c.store && g == Stamp(c.store[ids[j]], c.transitionType)
  }

  /** Every listed entry is the stored configuration of some triggered id,
      stamped with the event's transition type. */
  lemma {:induction false} LookupsAreStampedConfigs(c: Context, ids: seq<string>)
    ensures forall k :: 0 <= k < |Lookups(c, ids)| ==>
      Lookups(c, ids)[k].transitionType == c.transitionType && StampedConfigOf(c, ids, Lookups(c, ids)[k])
  {
    if ids != [] {
      LookupsAreStampedConfigs(c, ids[1..]);
      var head := Listing(c, ids[0]);
      var rest := Lookups(c, ids[1..]);
      assert Lookups(c, ids) == head + rest;
      forall k | 0 <= k < |Lookups(c, ids)|
        ensures Lookups(c, ids)[k].transitionType == c.transitionType && StampedConfigOf(c, ids, Lookups(c, ids)[k])
      {
        var g := Lookups(c, ids)[k];
        if k < |head| {
          assert ids[0] in c.store && g == Stamp(c.store[ids[0]], c.transitionType);
        } else {
          assert g == rest[k - |head|];
          assert StampedConfigOf(c, ids[1..], g);
          var j :| 0 <= j < |ids[1..]| && ids[1..][j] in c.store && g == Stamp(c.store[ids[1..][j]], c.transitionType);
          assert ids[j + 1] == ids[1..][j];
        }
      }
    }
  }

  /** The collected list around the id at position `k`. */
  lemma LookupsAround(c: Context, ids: seq<string>, k: nat)
    requires k < |ids|
    ensures Lookups(c, ids) == Lookups(c, ids[..k]) + Listing(c, ids[k]) + Lookups(c, ids[k + 1..])
  {
    var after := ids[k + 1..];
    assert ids == ids[..k] + ([ids[k]] + after);
    LookupsConcat(c, ids[..k], [ids[k]] + after);
    assert ([ids[k]] + after)[1..] == after;
  }

  /** The notify calls around the id at position `k`. */
  lemma FiredAround(c: Context, ids: seq<string>, k: nat)
    requires k < |ids|
    ensures Fired(c, ids) == Fired(c, ids[..k]) + Firing(c, ids[k]) + Fired(c, ids[k + 1..])
  {
    var after := ids[k + 1..];
    assert ids == ids[..k] + ([ids[k]] + after);
    FiredConcat(c, ids[..k], [ids[k]] + after);
    assert ([ids[k]] + after)[1..] == after;
  }

  /** The triggered id at position `k` adds its share to the list and to the
      notify calls between those of the ids before it and those after it: the
      trigger order is kept and repeated ids are processed again. */
  lemma OccurrenceContribution(c: Context, ids: seq<string>, k: nat)
    requires k < |ids|
    ensures Lookups(c, ids) == Lookups(c, ids[..k]) + Listing(c, ids[k]) + Lookups(c, ids[k + 1..])
    ensures Fired(c, ids) == Fired(c, ids[..k]) + Firing(c, ids[k]) + Fired(c, ids[k + 1..])
  {
    LookupsAround(c, ids, k);
    FiredAround(c, ids, k);
  }

  /** A triggered id without a stored configuration adds nothing and cannot crash. */
  lemma AbsentIdContributesNothing(c: Context, ids: seq<string>, k: nat)
    requires k < |ids| && ids[k] !in c.store
    ensures Lookups(c, ids) == Lookups(c, ids[..k]) + Lookups(c, ids[k + 1..])
    ensures Fired(c, ids) == Fired(c, ids[..k]) + Fired(c, ids[k + 1..])
    ensures !CrashesOn(c, ids[k])
  {
    OccurrenceContribution(c, ids, k);
    assert Listing(c, ids[k]) == [] && Firing(c, ids[k]) == [];
    assert Lookups(c, ids[..k]) + [] == Lookups(c, ids[..k]);
    assert Fired(c, ids[..k]) + [] == Fired(c, ids[..k]);
  }

  /** A stored configuration with a null payload is listed, stamped, and never notified. */
  lemma NullPayloadListedNotNotified(c: Context, ids: seq<string>, k: nat)
    requires k < |ids| && ids[k] in c.store && c.store[ids[k]].notification == None
    ensures Lookups(c, ids) == Lookups(c, ids[..k]) + [Stamp(c.store[ids[k]], c.transitionType)] + Lookups(c, ids[k + 1..])
    ensures Fired(c, ids) == Fired(c, ids[..k]) + Fired(c, ids[k + 1..])
    ensures !CrashesOn(c, ids[k])
  {
    OccurrenceContribution(c, ids, k);
    assert Listing(c, ids[k]) == [Stamp(c.store[ids[k]], c.transitionType)];
    assert Firing(c, ids[k]) == [];
    assert Fired(c, ids[..k]) + [] == Fired(c, ids[..k]);
  }

  /** A payload without a date window is notified exactly once for each
      occurrence of its id among the triggered ids, and its configuration listed. */
  lemma UndatedNotifiedPerOccurrence(c: Context, ids: seq<string>, k: nat, p: Notification)
    requires k < |ids| && ids[k] in c.store && c.store[ids[k]].notification == Some(p) && !p.byDate
    ensures Fired(c, ids) == Fired(c, ids[..k]) + [p] + Fired(c, ids[k + 1..])
    ensures Lookups(c, ids) == Lookups(c, ids[..k]) + [Stamp(c.store[ids[k]], c.transitionType)] + Lookups(c, ids[k + 1..])
    ensures !CrashesOn(c, ids[k])
  {
    OccurrenceContribution(c, ids, k);
    assert Listing(c, ids[k]) == [Stamp(c.store[ids[k]], c.transitionType)];
    assert Firing(c, ids[k]) == [p];
  }

  /** A payload with a date window is listed; it is notified exactly when the
      window decision says so. */
  lemma DatedNotifiedWhenEligible(c: Context, ids: seq<string>, k: nat, p: Notification)
    requires k < |ids| && ids[k] in c.store && c.store[ids[k]].notification == Some(p) && p.byDate
    ensures Fired(c, ids) == Fired(c, ids[..k])
                             + (if Decide(p, c.today, c.parse) == Fire then [p] else [])
                             + Fired(c, ids[k + 1..])
    ensures Lookups(c, ids) == Lookups(c, ids[..k]) + [Stamp(c.store[ids[k]], c.transitionType)] + Lookups(c, ids[k + 1..])
  {
    OccurrenceContribution(c, ids, k);
    assert Listing(c, ids[k]) == [Stamp(c.store[ids[k]], c.transitionType)];
    assert Firing(c, ids[k]) == if Decide(p, c.today, c.parse) == Fire then [p] else [];
  }

  /** `p` is the payload of one of `ids` and the window decision fires it. */
  ghost predicate EligiblePayloadOf(c: Context, ids: seq<string>, p: Notification) {
    exists j :: 0 <= j < |ids| && ids[j] in c.store && c.store[ids[j]].notification == Some(p)
                && Decide(p, c.today, c.parse) == Fire
  }

  /** Only eligible payloads of triggered, stored configurations are notified. */
  lemma {:induction false} FiredAreEligiblePayloads(c: Context, ids: seq<string>)
    ensures forall n :: 0 <= n < |Fired(c, ids)| ==> EligiblePayloadOf(c, ids, Fired(c, ids)[n])
  {
    if ids != [] {
      FiredAreEligiblePayloads(c, ids[1..]);
      var head := Firing(c, ids[0]);
      var rest := Fired(c, ids[1..]);
      assert Fired(c, ids) == head + rest;
      forall n | 0 <= n < |Fired(c, ids)|
        ensures EligiblePayloadOf(c, ids, Fired(c, ids)[n])
      {
        var p := Fired(c, ids)[n];
        if n < |head| {
          assert ids[0] in c.store && c.store[ids[0]].notification == Some(p);
        } else {
          assert p == rest[n - |head|];
          assert EligiblePayloadOf(c, ids[1..], p);
          var j :| 0 <= j < |ids[1..]| && ids[1..][j] in c.store && c.store[ids[1..][j]].notification == Some(p)
                   && Decide(p, c.today, c.parse) == Fire;
          assert ids[j + 1] == ids[1..][j];
        }
      }
    }
  }

  // ---------------------------------------------------------------------------
  // The handler on ENTER and EXIT

  /** Without a crash, the broadcast carries the collected list when some
      triggered id has a stored configuration and no extra otherwise; every
      eligible payload has been notified, in trigger order. */
  lemma HandleListsStoredConfigs(e: GeofencingEvent, store: map<string, GeoNotification>, nowMillis: int,
                                 parse: string -> Option<int>)
    requires !e.hasError && IsEnterOrExit(e.transitionType)
    requires NoCrash(ContextOf(e, store, nowMillis, parse), e.ids)
    ensures var c := ContextOf(e, store, nowMillis, parse);
      var d := Handle(e, store, nowMillis, parse);
      && d.notified == Fired(c, e.ids)
      && ((exists k :: 0 <= k < |e.ids| && e.ids[k] in store) ==> d.outcome == Broadcast(TransitionData(Lookups(c, e.ids))))
      && ((forall k :: 0 <= k < |e.ids| ==> e.ids[k] !in store) ==> d.outcome == Broadcast(NoExtras))
  {
    LookupsEmptyIff(ContextOf(e, store, nowMillis, parse), e.ids);
  }

  /** A crash on some triggered id suppresses the broadcast; the notify calls
      made are exactly those for the ids before the first crash, which lies at or
      before that id. */
  lemma HandleAbortsOnCrash(e: GeofencingEvent, store: map<string, GeoNotification>, nowMillis: int,
                            parse: string -> Option<int>, k: nat)
    requires !e.hasError && IsEnterOrExit(e.transitionType)
    requires k < |e.ids| && CrashesOn(ContextOf(e, store, nowMillis, parse), e.ids[k])
    ensures var c := ContextOf(e, store, nowMillis, parse);
      var d := Handle(e, store, nowMillis, parse);
      && d.outcome == Aborted
      && exists i :: 0 <= i <= k && d.notified == Fired(c, e.ids[..i]) && CrashesOn(c, e.ids[i]) && NoCrash(c, e.ids[..i])
  {
    var c := ContextOf(e, store, nowMillis, parse);
    assert !NoCrash(c, e.ids);
    var i := FirstCrash(c, e.ids);
    assert i <= k;
  }

  // ---------------------------------------------------------------------------
  // The date-window decision

  /** Without `byDate` the payload is always notified. */
  lemma DecideUndated(p: Notification, today: int, parse: string -> Option<int>)
    requires !p.byDate
    ensures Decide(p, today, parse) == Fire
  {
  }

  /** The emptiness guard fails only on the interned empty literal, and then the
      payload is passed over without parsing anything. */
  lemma DecideGuardRejects(p: Notification, today: int, parse: string -> Option<int>)
    requires p.byDate && (p.since == EmptyLiteral || p.until == EmptyLiteral || p.time == EmptyLiteral)
    ensures Decide(p, today, parse) == Skip
  {
  }

  /** An empty string that is not the literal passes the guard: the guard does
      not reliably reject empty fields. */
  lemma EmptyTextPassesGuard(p: Notification)
    requires p.since == Chars("") && p.until == Chars("") && p.time == Chars("")
    ensures WindowFieldsSet(p) && Text(p.since) == "" && Text(p.until) == "" && Text(p.time) == ""
  {
  }

  /** Under the guard, the start of the window is always the date joined with
      `time`: the midnight fallback is never taken. */
  lemma MidnightFallbackUnreachable(p: Notification)
    requires WindowFieldsSet(p)
    ensures SinceText(p) == Text(p.since) + " " + Text(p.time)
  {
  }

  /** When both dates parse, the payload fires exactly when its start lies
      strictly between now and `preTimeRange` days after now, and its end is
      still ahead; it never crashes. */
  lemma DecideDatedWindow(p: Notification, today: int, parse: string -> Option<int>, since: int, until: int)
    requires p.byDate && WindowFieldsSet(p)
    requires parse(Text(p.since) + " " + Text(p.time)) == Some(since)
    requires parse(Text(p.until) + " 23:59") == Some(until)
    ensures Decide(p, today, parse) != Crash
    ensures Decide(p, today, parse) == Fire <==>
      today < since && since < AddDays(today, p.preTimeRange as int) && today < until
  {
  }

  /** A start date that does not parse always crashes the handler. */
  lemma DecideSinceUnparsed(p: Notification, today: int, parse: string -> Option<int>)
    requires p.byDate && WindowFieldsSet(p)
    requires parse(Text(p.since) + " " + Text(p.time)) == None
    ensures Decide(p, today, parse) == Crash
  {
  }

  /** An end date that does not parse crashes the handler exactly when the start
      lies within the lead time; otherwise the payload is passed over. */
  lemma DecideUntilUnparsed(p: Notification, today: int, parse: string -> Option<int>, since: int)
    requires p.byDate && WindowFieldsSet(p)
    requires parse(Text(p.since) + " " + Text(p.time)) == Some(since)
    requires parse(Text(p.until) + " 23:59") == None
    ensures Decide(p, today, parse) != Fire
    ensures Decide(p, today, parse) == Crash <==> today < since && since < AddDays(today, p.preTimeRange as int)
  {
  }

  /** A dated payload fires only with a positive lead time, and then its start
      falls on a later minute within `preTimeRange` calendar days of now. */
  lemma FiringNeedsLeadTime(p: Notification, today: int, parse: string -> Option<int>)
    requires p.byDate && Decide(p, today, parse) == Fire
    ensures p.preTimeRange > 0
    ensures exists since :: parse(SinceText(p)) == Some(since)
                            && today < since < today + p.preTimeRange as int * MinutesPerDay
  {
    var since := parse(SinceText(p)).value;
    assert today < since < AddDays(today, p.preTimeRange as int);
    AddDaysOrder(today, p.preTimeRange as int);
  }

  /** Once the start of the window has come, the payload no longer fires, even
      while the window is still open. */
  lemma InsideWindowNeverFires(p: Notification, today: int, parse: string -> Option<int>, since: int)
    requires p.byDate && parse(SinceText(p)) == Some(since) && since <= today
    ensures Decide(p, today, parse) != Fire
  {
  }
}

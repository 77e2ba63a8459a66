/** The weekly care reminders of services/notification.service.ts, with the
    Expo scheduler as a class holding its table of scheduled notifications.
    The scheduler hands out identifiers from a counter, which stands for the
    fresh identifiers the native module returns. */
module NotificationService {
  import opened Wrappers
  import opened JsStrings
  import opened JsValues
  import PlantsApi

  /** An entry of `WEEKDAYS` (constants/values.ts): the repeat value and the
      weekday number of the WEEKLY trigger. */
  datatype WeekdayEntry = WeekdayEntry(value: string, display: string, number: nat)

  const WEEKDAYS: seq<WeekdayEntry> := [
    WeekdayEntry("mon", "T2", 2), WeekdayEntry("tue", "T3", 3), WeekdayEntry("wed", "T4", 4),
    WeekdayEntry("thu", "T5", 5), WeekdayEntry("fri", "T6", 6), WeekdayEntry("sat", "T7", 7),
    WeekdayEntry("sun", "CN", 1)]

  datatype CareType = CareType(value: string, display: string)

  const CARE_TYPES: seq<CareType> := [
    CareType("water", "Tưới nước"), CareType("fertilize", "Bón phân"), CareType("repot", "Chuyển chậu"),
    CareType("prune", "Tỉa cành"), CareType("clean", "Vệ sinh")]

  const ALARMS_ID_PREFIX: string := "plant-mate-alarm"

  /** The fields of a `UserPlantCare` the service reads. */
  datatype PlantCare = PlantCare(id: nat, time: string, careType: string, repeat: seq<string>, plantName: string)

  /** `${ALARMS_ID_PREFIX}-${id}`: the `data.id` tying a notification to its
      care schedule. */
  function AlarmId(id: string): string {
    ALARMS_ID_PREFIX + "-" + id
  }

  /** `days.filter(d => repeat.includes(d.value)).map(d => d.number)`. */
  function SelectDays(days: seq<WeekdayEntry>, repeat: seq<string>): (r: seq<nat>)
    ensures |r| <= |days|
  {
    if days == [] then []
    else (if days[0].value in repeat then [days[0].number] else []) + SelectDays(days[1..], repeat)
  }

  /** The weekday numbers of a schedule, in `WEEKDAYS` order. */
  function SelectedWeekdays(repeat: seq<string>): seq<nat> {
    SelectDays(WEEKDAYS, repeat)
  }

  /** A selected number comes from a day whose value is repeated, and every
      such day is selected. */
  lemma {:induction false} SelectDaysMembership(days: seq<WeekdayEntry>, repeat: seq<string>, n: nat)
    ensures n in SelectDays(days, repeat) <==>
      exists k :: 0 <= k < |days| && days[k].number == n && days[k].value in repeat
  {
    if days != [] {
      SelectDaysMembership(days[1..], repeat, n);
      if exists k :: 0 <= k < |days| && days[k].number == n && days[k].value in repeat {
        var k :| 0 <= k < |days| && days[k].number == n && days[k].value in repeat;
        if k > 0 {
          assert days[1..][k - 1] == days[k];
        }
      }
      if exists k :: 0 <= k < |days[1..]| && days[1..][k].number == n && days[1..][k].value in repeat {
        var k :| 0 <= k < |days[1..]| && days[1..][k].number == n && days[1..][k].value in repeat;
        assert days[k + 1] == days[1..][k];
      }
    }
  }

  /** Only which known values the list holds matters: order, duplicates and
      unknown values change nothing. */
  lemma {:induction false} SelectDaysByMembership(days: seq<WeekdayEntry>, a: seq<string>, b: seq<string>)
    requires forall k :: 0 <= k < |days| ==> (days[k].value in a <==> days[k].value in b)
    ensures SelectDays(days, a) == SelectDays(days, b)
  {
    if days != [] {
      assert days[0].value in a <==> days[0].value in b;
      forall k | 0 <= k < |days[1..]|
        ensures days[1..][k].value in a <==> days[1..][k].value in b
      {
        assert days[1..][k] == days[k + 1];
      }
      SelectDaysByMembership(days[1..], a, b);
    }
  }

  predicate NoDuplicates(r: seq<nat>) {
    forall i, j :: 0 <= i < j < |r| ==> r[i] != r[j]
  }

  /** Distinct day numbers give distinct selected numbers. */
  lemma {:induction false} SelectDaysDistinct(days: seq<WeekdayEntry>, repeat: seq<string>)
    requires forall i, j :: 0 <= i < j < |days| ==> days[i].number != days[j].number
    ensures NoDuplicates(SelectDays(days, repeat))
  {
    if days != [] {
      assert forall i :: 0 <= i < |days[1..]| ==> days[1..][i] == days[i + 1];
      SelectDaysDistinct(days[1..], repeat);
      var rest := SelectDays(days[1..], repeat);
      assert NoDuplicates(rest);
      SelectDaysMembership(days[1..], repeat, days[0].number);
      assert days[0].number !in rest;
      var r := SelectDays(days, repeat);
      if days[0].value in repeat {
        assert r == [days[0].number] + rest;
        forall i, j | 0 <= i < j < |r|
          ensures r[i] != r[j]
        {
          if i == 0 {
            assert r[0] == days[0].number && r[j] == rest[j - 1];
          } else {
            assert r[i] == rest[i - 1] && r[j] == rest[j - 1];
          }
        }
      } else {
        assert r == rest;
      }
    }
  }

  /** What the schedule picks: each repeated weekday once, numbered mon..sat
      as 2..7 and sun as 1, in the order mon..sun whatever order the list
      has; duplicates and unknown values add nothing. */
  lemma SelectedWeekdaysFacts(repeat: seq<string>)
    ensures |SelectedWeekdays(repeat)| <= 7
    ensures NoDuplicates(SelectedWeekdays(repeat))
    ensures forall n :: n in SelectedWeekdays(repeat) ==> 1 <= n <= 7
  {
    SelectDaysDistinct(WEEKDAYS, repeat);
    forall n | n in SelectedWeekdays(repeat)
      ensures 1 <= n <= 7
    {
      SelectDaysMembership(WEEKDAYS, repeat, n);
    }
  }

  /** The selection follows `WEEKDAYS`, not the list: sunday comes last. */
  lemma SelectedWeekdaysExample()
    ensures SelectedWeekdays(["sun", "mon", "mon", "holiday"]) == [2, 1]
  {
    var repeat := ["sun", "mon", "mon", "holiday"];
    assert WEEKDAYS[0].value in repeat && WEEKDAYS[6].value in repeat by { assert repeat[1] == "mon" && repeat[0] == "sun"; }
    forall k | 1 <= k <= 5
      ensures WEEKDAYS[k].value !in repeat
    {
      assert |WEEKDAYS[k].value| == 3 && WEEKDAYS[k].value[2] != 'n';
    }
    var w := WEEKDAYS;
    assert SelectDays(w[6..], repeat) == [1] by { assert w[6..][1..] == []; }
    assert SelectDays(w[1..], repeat) == [1] by {
      assert w[1..][1..] == w[2..] && w[2..][1..] == w[3..] && w[3..][1..] == w[4..];
      assert w[4..][1..] == w[5..] && w[5..][1..] == w[6..];
    }
  }

  /** `CARE_TYPES.filter(t => t.value == type)[0].label`: the label of the
      first matching entry; reading `.label` of `undefined` throws. */
  function TypeLabel(careType: string): (r: Eval<string>)
    ensures r.Value? <==> exists k :: 0 <= k < |CARE_TYPES| && CARE_TYPES[k].value == careType
    ensures r.Value? ==> exists k :: 0 <= k < |CARE_TYPES| && CARE_TYPES[k] == CareType(careType, r.value)
  {
    FirstLabel(CARE_TYPES, careType)
  }

  function FirstLabel(types: seq<CareType>, careType: string): (r: Eval<string>)
    ensures r.Value? <==> exists k :: 0 <= k < |types| && types[k].value == careType
    ensures r.Value? ==> exists k :: 0 <= k < |types| && types[k] == CareType(careType, r.value)
  {
    if types == [] then Crash
    else if types[0].value == careType then Value(types[0].display)
    else
      var r := FirstLabel(types[1..], careType);
      assert forall k :: 0 < k < |types| ==> types[k] == types[1..][k - 1];
      assert r.Value? ==> exists k :: 0 < k < |types| && types[k] == CareType(careType, r.value) by {
        if r.Value? {
          var k :| 0 <= k < |types[1..]| && types[1..][k] == CareType(careType, r.value);
          assert types[k + 1] == types[1..][k];
        }
      }
      r
  }

  /** The trigger time: `Number` of the first and of the second `:` piece (the
      second is `undefined`, hence NaN, without a `:`). */
  function TriggerTime(time: string): (Option<int>, Option<int>) {
    var pieces := Split(time, ':');
    (NumberOf(Some(pieces[0])), NumberOf(if |pieces| > 1 then Some(pieces[1]) else None))
  }

  /** The time `createPlantCare` sends is read back as the same hour and
      minute. */
  lemma TriggerTimeOfCareTime(hours: nat, minutes: nat)
    ensures TriggerTime(PlantsApi.CareTime(hours, minutes)) == (Some(hours), Some(minutes))
  {
    PlantsApi.CareTimeSplits(hours, minutes);
    NumberOfNatToString(hours);
    NumberOfNatToString(minutes);
  }

  /** A time whose first two `:` pieces are digit strings triggers at their
      values; whatever follows the second `:` is ignored. */
  lemma TriggerTimeOfDigits(h: string, m: string, rest: string)
    requires h != "" && m != "" && AllDigits(h) && AllDigits(m) && ':' !in h && ':' !in m
    ensures TriggerTime(h + [':'] + (m + [':'] + rest)) == (Some(DigitsValue(h)), Some(DigitsValue(m)))
  {
    SplitAfterPiece(h, m + [':'] + rest, ':');
    SplitAfterPiece(m, rest, ':');
  }

  lemma TwoDigitsValue(a: char, b: char)
    requires IsDigit(a) && IsDigit(b)
    ensures AllDigits([a, b]) && DigitsValue([a, b]) == ((a as int) - ('0' as int)) * 10 + ((b as int) - ('0' as int))
  {
    assert [a][..0] == [];
    assert DigitsValue([a]) == (a as int) - ('0' as int);
    assert [a, b][..1] == [a];
  }

  /** The server's `HH:MM:SS` form gives the hour and the minute, leading
      zeros and seconds ignored. */
  lemma TriggerTimeOfServerTime()
    ensures TriggerTime("09:05:00") == (Some(9), Some(5))
  {
    assert "09:05:00" == "09" + [':'] + ("05" + [':'] + "00");
    TwoDigitsValue('0', '9');
    TwoDigitsValue('0', '5');
    TriggerTimeOfDigits("09", "05", "00");
  }

  /** A scheduled notification: identifier, content and WEEKLY trigger. */
  datatype Notification = Notification(
    identifier: nat, title: string, body: string, dataId: string,
    hour: Option<int>, minute: Option<int>, weekday: nat)

  const TITLE: string := "PlantMate"

  function Body(typeLabel: string, plantName: string): string {
    "Đã đến giờ " + typeLabel + " cho " + plantName + " rồi đó!"
  }

  /** The notification scheduled for one weekday of a care schedule. */
  function Planned(care: PlantCare, typeLabel: string, weekday: nat, identifier: nat): Notification {
    Notification(identifier, TITLE, Body(typeLabel, care.plantName), AlarmId(NatToString(care.id)),
                 TriggerTime(care.time).0, TriggerTime(care.time).1, weekday)
  }

  /** The notifications of one schedule, identifiers counted from `first`. */
  function WeeklyBatch(care: PlantCare, typeLabel: string, weekdays: seq<nat>, first: nat): (b: seq<Notification>)
    ensures |b| == |weekdays|
    ensures forall k :: 0 <= k < |b| ==>
      (b[k].dataId == AlarmId(NatToString(care.id)) && b[k].weekday == weekdays[k] && b[k].identifier == first + k)
  {
    seq(|weekdays|, k requires 0 <= k < |weekdays| => Planned(care, typeLabel, weekdays[k], first + k))
  }

  /** One more weekday adds one more notification, with the next identifier. */
  lemma WeeklyBatchSnoc(care: PlantCare, typeLabel: string, weekdays: seq<nat>, i: nat, first: nat)
    requires i < |weekdays|
    ensures WeeklyBatch(care, typeLabel, weekdays[..i + 1], first)
         == WeeklyBatch(care, typeLabel, weekdays[..i], first) + [Planned(care, typeLabel, weekdays[i], first + i)]
  {
  }

  function Matching(list: seq<Notification>, dataId: string): (r: seq<Notification>)
    ensures forall k :: 0 <= k < |r| ==> r[k].dataId == dataId && r[k] in list
    ensures forall n :: n in list && n.dataId == dataId ==> n in r
  {
    if list == [] then []
    else (if list[0].dataId == dataId then [list[0]] else []) + Matching(list[1..], dataId)
  }

  function NotMatching(list: seq<Notification>, dataId: string): (r: seq<Notification>)
    ensures forall k :: 0 <= k < |r| ==> r[k].dataId != dataId && r[k] in list
    ensures forall n :: n in list && n.dataId != dataId ==> n in r
  {
    if list == [] then []
    else (if list[0].dataId != dataId then [list[0]] else []) + NotMatching(list[1..], dataId)
  }

  /** The entries whose identifier is not in `ids`. */
  function Without(list: seq<Notification>, ids: set<nat>): (r: seq<Notification>)
    ensures forall k :: 0 <= k < |r| ==> r[k].identifier !in ids && r[k] in list
  {
    if list == [] then []
    else (if list[0].identifier !in ids then [list[0]] else []) + Without(list[1..], ids)
  }

  predicate DistinctIds(list: seq<Notification>) {
    forall i, j :: 0 <= i < j < |list| ==> list[i].identifier != list[j].identifier
  }

  function IdsOf(list: seq<Notification>): set<nat> {
    set n | n in list :: n.identifier
  }

  lemma WithoutCons(n: Notification, list: seq<Notification>, ids: set<nat>)
    ensures Without([n] + list, ids) == (if n.identifier !in ids then [n] else []) + Without(list, ids)
  {
    assert ([n] + list)[1..] == list;
  }

  lemma {:induction false} WithoutNothing(list: seq<Notification>)
    ensures Without(list, {}) == list
  {
    if list != [] {
      WithoutNothing(list[1..]);
      assert [list[0]] + list[1..] == list;
    }
  }

  lemma IdsOfSnoc(list: seq<Notification>, n: Notification)
    ensures IdsOf(list + [n]) == IdsOf(list) + {n.identifier}
  {
    assert forall m :: m in list + [n] <==> m in list || m == n;
  }

  lemma {:induction false} WithoutTwice(list: seq<Notification>, a: set<nat>, b: set<nat>)
    ensures Without(Without(list, a), b) == Without(list, a + b)
  {
    if list != [] {
      WithoutTwice(list[1..], a, b);
      var rest := Without(list[1..], a);
      if list[0].identifier !in a {
        assert Without(list, a) == [list[0]] + rest;
        WithoutCons(list[0], rest, b);
      } else {
        assert Without(list, a) == rest;
      }
    }
  }

  /** Removing identifiers that agree, on the list, with "matches" leaves the
      non-matching entries. */
  lemma {:induction false} WithoutAgreeing(list: seq<Notification>, ids: set<nat>, dataId: string)
    requires forall k :: 0 <= k < |list| ==> (list[k].identifier in ids <==> list[k].dataId == dataId)
    ensures Without(list, ids) == NotMatching(list, dataId)
  {
    if list != [] {
      assert list[0].identifier in ids <==> list[0].dataId == dataId;
      forall k | 0 <= k < |list[1..]|
        ensures list[1..][k].identifier in ids <==> list[1..][k].dataId == dataId
      {
        assert list[1..][k] == list[k + 1];
      }
      WithoutAgreeing(list[1..], ids, dataId);
    }
  }

  /** With distinct identifiers, cancelling every match by identifier leaves
      exactly the non-matching entries. */
  lemma CancelMatching(list: seq<Notification>, dataId: string)
    requires DistinctIds(list)
    ensures Without(list, IdsOf(Matching(list, dataId))) == NotMatching(list, dataId)
  {
    var ids := IdsOf(Matching(list, dataId));
    forall k | 0 <= k < |list|
      ensures list[k].identifier in ids <==> list[k].dataId == dataId
    {
      if list[k].dataId == dataId {
        assert list[k] in Matching(list, dataId);
      }
    }
    WithoutAgreeing(list, ids, dataId);
  }

  lemma {:induction false} MatchingConcat(a: seq<Notification>, b: seq<Notification>, dataId: string)
    ensures Matching(a + b, dataId) == Matching(a, dataId) + Matching(b, dataId)
  {
    if a != [] {
      assert (a + b)[1..] == a[1..] + b;
      MatchingConcat(a[1..], b, dataId);
    } else {
      assert a + b == b;
    }
  }

  lemma MatchingCons(n: Notification, list: seq<Notification>, dataId: string)
    ensures Matching([n] + list, dataId) == (if n.dataId == dataId then [n] else []) + Matching(list, dataId)
  {
    assert ([n] + list)[1..] == list;
  }

  lemma {:induction false} MatchingOfNotMatching(list: seq<Notification>, dataId: string)
    ensures Matching(NotMatching(list, dataId), dataId) == []
  {
    if list != [] {
      var rest := NotMatching(list[1..], dataId);
      MatchingOfNotMatching(list[1..], dataId);
      if list[0].dataId != dataId {
        assert NotMatching(list, dataId) == [list[0]] + rest;
        MatchingCons(list[0], rest, dataId);
      } else {
        assert NotMatching(list, dataId) == rest;
      }
    }
  }

  lemma {:induction false} MatchingAll(list: seq<Notification>, dataId: string)
    requires forall k :: 0 <= k < |list| ==> list[k].dataId == dataId
    ensures Matching(list, dataId) == list
  {
    if list != [] {
      MatchingAll(list[1..], dataId);
      assert [list[0]] + list[1..] == list;
    }
  }

  /** After an update of a schedule by its own id, the notifications found
      for it are exactly the newly scheduled batch. */
  lemma UpdateLeavesOnlyNewBatch(list: seq<Notification>, care: PlantCare, typeLabel: string, first: nat)
    ensures var d := AlarmId(NatToString(care.id));
      var batch := WeeklyBatch(care, typeLabel, SelectedWeekdays(care.repeat), first);
      Matching(NotMatching(list, d) + batch, d) == batch
  {
    var d := AlarmId(NatToString(care.id));
    var batch := WeeklyBatch(care, typeLabel, SelectedWeekdays(care.repeat), first);
    MatchingConcat(NotMatching(list, d), batch, d);
    MatchingOfNotMatching(list, d);
    MatchingAll(batch, d);
  }

  /** The Expo scheduler's table of scheduled notifications. */
  class Scheduler {
    var scheduled: seq<Notification>
    var nextIdentifier: nat

    ghost predicate Valid()
      reads this
    {
      DistinctIds(scheduled) && forall k :: 0 <= k < |scheduled| ==> scheduled[k].identifier < nextIdentifier
    }

    constructor ()
      ensures Valid() && scheduled == [] && nextIdentifier == 0
    {
      scheduled := [];
      nextIdentifier := 0;
    }

    /** `scheduleNotificationAsync`: one more entry, with a fresh identifier. */
    method Schedule(title: string, body: string, dataId: string, hour: Option<int>, minute: Option<int>,
                    weekday: nat) returns (identifier: nat)
      requires Valid()
      modifies this
      ensures Valid()
      ensures identifier == old(nextIdentifier) && nextIdentifier == old(nextIdentifier) + 1
      ensures scheduled == old(scheduled) + [Notification(identifier, title, body, dataId, hour, minute, weekday)]
    {
      identifier := nextIdentifier;
      scheduled := scheduled + [Notification(identifier, title, body, dataId, hour, minute, weekday)];
      nextIdentifier := nextIdentifier + 1;
    }

    /** `cancelScheduledNotificationAsync(identifier)`. */
    method Cancel(identifier: nat)
      requires Valid()
      modifies this`scheduled
      ensures Valid()
      ensures scheduled == Without(old(scheduled), {identifier})
    {
      WithoutKeepsDistinct(scheduled, {identifier}, nextIdentifier);
      scheduled := Without(scheduled, {identifier});
    }

    /** `getAllScheduledNotificationsAsync`. */
    function All(): seq<Notification>
      reads this
    {
      scheduled
    }
  }

  /** Cancelling keeps the identifiers distinct and below the counter. */
  lemma WithoutKeepsDistinct(list: seq<Notification>, ids: set<nat>, bound: nat)
    requires DistinctIds(list) && forall k :: 0 <= k < |list| ==> list[k].identifier < bound
    ensures DistinctIds(Without(list, ids))
    ensures forall k :: 0 <= k < |Without(list, ids)| ==> Without(list, ids)[k].identifier < bound
  {
    WithoutDistinct(list, ids);
    forall n | n in Without(list, ids)
      ensures n.identifier < bound
    {
      var j :| 0 <= j < |list| && list[j] == n;
    }
  }

  lemma {:induction false} WithoutDistinct(list: seq<Notification>, ids: set<nat>)
    requires DistinctIds(list)
    ensures DistinctIds(Without(list, ids))
  {
    if list != [] {
      var tail := list[1..];
      assert forall k :: 0 <= k < |tail| ==> tail[k] == list[k + 1];
      WithoutDistinct(tail, ids);
      var rest := Without(tail, ids);
      if list[0].identifier !in ids {
        var r := Without(list, ids);
        assert r == [list[0]] + rest;
        forall k | 0 <= k < |rest|
          ensures rest[k].identifier != list[0].identifier
        {
          var j :| 0 <= j < |tail| && tail[j] == rest[k];
          assert list[j + 1] == rest[k];
        }
        forall i, j | 0 <= i < j < |r|
          ensures r[i].identifier != r[j].identifier
        {
          if i == 0 { assert r[j] == rest[j - 1]; } else { assert r[i] == rest[i - 1] && r[j] == rest[j - 1]; }
        }
      }
    }
  }

  /** Cancelling one more found identifier removes one more id from the set. */
  lemma CancelStep(list: seq<Notification>, found: seq<Notification>, i: nat)
    requires i < |found|
    ensures Without(Without(list, IdsOf(found[..i])), {found[i].identifier}) == Without(list, IdsOf(found[..i + 1]))
  {
    WithoutTwice(list, IdsOf(found[..i]), {found[i].identifier});
    assert found[..i + 1] == found[..i] + [found[i]];
    IdsOfSnoc(found[..i], found[i]);
  }

  /** `findNotificationsById(id)`: the scheduled notifications of one care
      schedule, in scheduling order. */
  method FindNotificationsById(s: Scheduler, id: string) returns (r: seq<Notification>)
    ensures r == Matching(s.scheduled, AlarmId(id))
  {
    var all := s.All();
    r := Matching(all, AlarmId(id));
  }

  /** `cancelNotificationsById(id)`: cancels the found notifications one by
      one; the others stay. */
  method CancelNotificationsById(s: Scheduler, id: string)
    requires s.Valid()
    modifies s
    ensures s.Valid()
    ensures s.scheduled == NotMatching(old(s.scheduled), AlarmId(id))
    ensures s.nextIdentifier == old(s.nextIdentifier)
  {
    var found := FindNotificationsById(s, id);
    ghost var start := s.scheduled;
    assert found[..0] == [] && IdsOf(found[..0]) == {};
    WithoutNothing(start);
    var i := 0;
    while i < |found|
      invariant 0 <= i <= |found|
      invariant s.Valid() && s.nextIdentifier == old(s.nextIdentifier)
      invariant s.scheduled == Without(start, IdsOf(found[..i]))
    {
      CancelStep(start, found, i);
      s.Cancel(found[i].identifier);
      i := i + 1;
    }
    assert found[..i] == found;
    CancelMatching(start, AlarmId(id));
  }

  /** The loop of `scheduleWeeklyNotification`: one notification per weekday,
      in order, collecting the identifiers. */
  method ScheduleBatch(s: Scheduler, care: PlantCare, typeLabel: string, hour: Option<int>, minute: Option<int>,
                       weekdays: seq<nat>) returns (ids: seq<nat>)
    requires s.Valid() && (hour, minute) == TriggerTime(care.time)
    modifies s
    ensures s.Valid()
    ensures s.scheduled == old(s.scheduled) + WeeklyBatch(care, typeLabel, weekdays, old(s.nextIdentifier))
    ensures s.nextIdentifier == old(s.nextIdentifier) + |weekdays|
    ensures |ids| == |weekdays| && forall k :: 0 <= k < |ids| ==> ids[k] == old(s.nextIdentifier) + k
  {
    ghost var start := s.scheduled;
    ghost var first := s.nextIdentifier;
    ids := [];
    var i := 0;
    while i < |weekdays|
      invariant 0 <= i <= |weekdays|
      invariant s.Valid() && s.nextIdentifier == first + i
      invariant s.scheduled == start + WeeklyBatch(care, typeLabel, weekdays[..i], first)
      invariant |ids| == i && forall k :: 0 <= k < i ==> ids[k] == first + k
    {
      var identifier := s.Schedule(TITLE, Body(typeLabel, care.plantName), AlarmId(NatToString(care.id)),
                                   hour, minute, weekdays[i]);
      WeeklyBatchSnoc(care, typeLabel, weekdays, i, first);
      ids := ids + [identifier];
      i := i + 1;
    }
    assert weekdays[..i] == weekdays;
  }

  /** `scheduleWeeklyNotification(plantCare)`: one WEEKLY notification per
      selected weekday, whose identifiers are returned in the same order; an
      unknown care type throws before anything is scheduled. */
  method ScheduleWeeklyNotification(s: Scheduler, care: PlantCare) returns (r: Eval<seq<nat>>)
    requires s.Valid()
    modifies s
    ensures s.Valid()
    ensures r.Crash? <==> TypeLabel(care.careType).Crash?
    ensures r.Crash? ==> s.scheduled == old(s.scheduled) && s.nextIdentifier == old(s.nextIdentifier)
    ensures r.Value? ==>
      var batch := WeeklyBatch(care, TypeLabel(care.careType).value, SelectedWeekdays(care.repeat), old(s.nextIdentifier));
      s.scheduled == old(s.scheduled) + batch
      && s.nextIdentifier == old(s.nextIdentifier) + |batch|
      && |r.value| == |batch|
      && forall k :: 0 <= k < |batch| ==> r.value[k] == batch[k].identifier
  {
    var (hour, minute) := TriggerTime(care.time);
    var typeLabel := TypeLabel(care.careType);
    if typeLabel.Crash? {
      return Crash;
    }
    var weekdays := SelectedWeekdays(care.repeat);
    var ids := ScheduleBatch(s, care, typeLabel.value, hour, minute, weekdays);
    r := Value(ids);
  }

  /** `updateNotificationsById(id, plantCareLocal)`: cancel by `id`, then
      schedule `plantCareLocal`. */
  method UpdateNotificationsById(s: Scheduler, id: string, care: PlantCare) returns (r: Eval<seq<nat>>)
    requires s.Valid()
    modifies s
    ensures s.Valid()
    ensures r.Crash? <==> TypeLabel(care.careType).Crash?
    ensures r.Crash? ==> s.scheduled == NotMatching(old(s.scheduled), AlarmId(id))
    ensures r.Value? ==>
      s.scheduled == NotMatching(old(s.scheduled), AlarmId(id))
        + WeeklyBatch(care, TypeLabel(care.careType).value, SelectedWeekdays(care.repeat), old(s.nextIdentifier))
  {
    CancelNotificationsById(s, id);
    r := ScheduleWeeklyNotification(s, care);
  }
}

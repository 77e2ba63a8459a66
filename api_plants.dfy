/** The plant API of api/plants.ts: search, plant details, the user's
    collection and care schedules. Except where stated, a failure that is not
    an AppErrors is swallowed and the call resolves with `undefined`. */
module PlantsApi {
  import opened Wrappers
  import opened JsStrings
  import opened JsValues
  import opened Errors
  import opened Store
  import opened RequestClient

  const PLANT_ALREADY_IN_COLLECTION: ErrorObject :=
    ErrorObject("PLANT_ALREADY_IN_COLLECTION", "Cây này đã có trong bộ sưu tập của bạn")

  /** `PlantErrors.plantAlreadyInCollection()`: the message is also the
      `nonFieldErrors` property. */
  function PlantAlreadyInCollection(): (e: AppError)
    ensures e.Coded? && e.cls == PlantErrorsClass && e.obj.code == "PLANT_ALREADY_IN_COLLECTION"
    ensures e.properties == map["nonFieldErrors" := JStr(e.obj.message)]
  {
    Coded(PlantErrorsClass, PLANT_ALREADY_IN_COLLECTION,
          map["nonFieldErrors" := JStr(PLANT_ALREADY_IN_COLLECTION.message)])
  }

  /** `if (error instanceof AppErrors) throw error;` and nothing else: the
      error to rethrow, None when it is swallowed. */
  function KeepTyped(t: Thrown): Option<Thrown> {
    if IsAppErrors(t) then Some(t) else None
  }

  /** How the read-only plant calls settle: the data, an AppErrors, or
      `undefined` (Fulfilled(None)) for any other failure. */
  function SettleKeepingTyped<B>(o: Outcome<B>): (r: Settled<Option<B>>)
    ensures r.Raised? ==> IsAppErrors(r.error)
    ensures r.Fulfilled? && r.value.Some? <==> o.Resolved?
    ensures o.Rejected? ==> (r.Raised? <==> IsAppErrors(o.error))
  {
    match o
    case Resolved(_, data) => Fulfilled(Some(data))
    case Rejected(t) => if IsAppErrors(t) then Raised(t) else Fulfilled(None)
    case Exhausted => Undetermined
  }

  /** What a read-only plant call sees of a failed transport: the network
      error and the refresh errors reach the caller; any other server
      answer (4xx/5xx) is hidden. */
  lemma PlantCallFailures<B>(configs: Option<Configs>, reply: Transport<B>, script: seq<Transport<RefreshTokenResponse>>)
    requires reply.Failed?
    ensures var r := SettleKeepingTyped(RequestOutcome(configs, reply, script));
      (reply.code == ERR_NETWORK ==> r == Raised(App(NetworkError)))
      && (Classify(reply.code, reply.response, RefreshEnabled(EffectiveConfigs(configs))) == RethrowOriginal ==>
            r == Fulfilled(None))
  {
  }

  /** The request shape shared by the read-only plant calls. */
  method FetchKeepingTyped<B>(s: Session, configs: Option<Configs>, reply: Transport<B>,
                              script: seq<Transport<RefreshTokenResponse>>)
    returns (r: Settled<Option<B>>)
    modifies s
    ensures r == SettleKeepingTyped(RequestOutcome(configs, reply, script))
    ensures StateAfterRequest(old(s.State()), configs, reply, script).Some? ==>
      s.State() == StateAfterRequest(old(s.State()), configs, reply, script).value
  {
    var o := Request(s, configs, reply, script);
    r := SettleKeepingTyped(o);
  }

  /** `searchByKeyword(schema)`. */
  method SearchByKeyword<B>(s: Session, reply: Transport<B>, script: seq<Transport<RefreshTokenResponse>>)
    returns (r: Settled<Option<B>>)
    modifies s
    ensures r == SettleKeepingTyped(RequestOutcome(None, reply, script))
    ensures StateAfterRequest(old(s.State()), None, reply, script).Some? ==>
      s.State() == StateAfterRequest(old(s.State()), None, reply, script).value
  {
    r := FetchKeepingTyped(s, None, reply, script);
  }

  /** The configuration of `searchByImage`: a longer timeout and a multipart
      body, and no refresh flag. */
  const SEARCH_BY_IMAGE_CONFIGS: Configs :=
    map["timeout" := JNum(30000),
        "headers" := JObj(map["Content-Type" := JStr("multipart/form-data")])]

  /** `searchByImage(formData)`: its own configuration switches the token
      refresh off, so the call never changes the session and always settles. */
  method SearchByImage<B>(s: Session, reply: Transport<B>, script: seq<Transport<RefreshTokenResponse>>)
    returns (r: Settled<Option<B>>)
    modifies s
    ensures r == SettleKeepingTyped(RequestOutcome(Some(SEARCH_BY_IMAGE_CONFIGS), reply, script))
    ensures r != Undetermined
    ensures s.State() == old(s.State())
  {
    NoRefreshWithoutFlag(s.State(), SEARCH_BY_IMAGE_CONFIGS, reply, script);
    r := FetchKeepingTyped(s, Some(SEARCH_BY_IMAGE_CONFIGS), reply, script);
  }

  /** `getPlantById(id)`. */
  method GetPlantById<B>(s: Session, reply: Transport<B>, script: seq<Transport<RefreshTokenResponse>>)
    returns (r: Settled<Option<B>>)
    modifies s
    ensures r == SettleKeepingTyped(RequestOutcome(None, reply, script))
    ensures StateAfterRequest(old(s.State()), None, reply, script).Some? ==>
      s.State() == StateAfterRequest(old(s.State()), None, reply, script).value
  {
    r := FetchKeepingTyped(s, None, reply, script);
  }

  /** `getUserPlants()`. */
  method GetUserPlants<B>(s: Session, reply: Transport<B>, script: seq<Transport<RefreshTokenResponse>>)
    returns (r: Settled<Option<B>>)
    modifies s
    ensures r == SettleKeepingTyped(RequestOutcome(None, reply, script))
    ensures StateAfterRequest(old(s.State()), None, reply, script).Some? ==>
      s.State() == StateAfterRequest(old(s.State()), None, reply, script).value
  {
    r := FetchKeepingTyped(s, None, reply, script);
  }

  /** `getUserPlantCares()`. */
  method GetUserPlantCares<B>(s: Session, reply: Transport<B>, script: seq<Transport<RefreshTokenResponse>>)
    returns (r: Settled<Option<B>>)
    modifies s
    ensures r == SettleKeepingTyped(RequestOutcome(None, reply, script))
    ensures StateAfterRequest(old(s.State()), None, reply, script).Some? ==>
      s.State() == StateAfterRequest(old(s.State()), None, reply, script).value
  {
    r := FetchKeepingTyped(s, None, reply, script);
  }

  const NON_FIELD_ERRORS: string := "non_field_errors"
  const UNIQUE: string := "unique"

  /** The catch block of `addPlantToCollection` as written: for a 400 whose
      body has truthy `non_field_errors`, `"unique" in non_field_errors`
      tests for a KEY named "unique" (and throws a TypeError on a string,
      which is not an object); without a match the AxiosError is swallowed. */
  function AddPlantFailureAsWritten(t: Thrown): (r: Option<Thrown>)
    ensures IsAxiosStatus(t, 400) ==>
      (r == Some(App(PlantAlreadyInCollection())) <==>
         exists f :: Prop(t.response.value.data, NON_FIELD_ERRORS) == Some(JObj(f)) && UNIQUE in f)
    ensures IsAxiosStatus(t, 400) ==>
      (r == Some(TypeError) <==>
         TruthyOpt(Prop(t.response.value.data, NON_FIELD_ERRORS))
         && !(Prop(t.response.value.data, NON_FIELD_ERRORS).value.JObj?
              || Prop(t.response.value.data, NON_FIELD_ERRORS).value.JArr?))
    ensures IsAxiosStatus(t, 400) && Prop(t.response.value.data, NON_FIELD_ERRORS).Some?
            && Prop(t.response.value.data, NON_FIELD_ERRORS).value.JStr?
            && Prop(t.response.value.data, NON_FIELD_ERRORS).value.s != "" ==>
      r == Some(TypeError)
    ensures IsAxiosStatus(t, 400) && !r.Some? ==> r == None
    ensures r.Some? ==> r.value.App? || r.value == TypeError
    ensures !IsAxiosStatus(t, 400) ==> r == KeepTyped(t)
  {
    if IsAxiosStatus(t, 400) && TruthyOpt(Prop(t.response.value.data, NON_FIELD_ERRORS)) then
      match In(UNIQUE, Prop(t.response.value.data, NON_FIELD_ERRORS).value)
      case Crash => Some(TypeError)
      case Value(found) => if found then Some(App(PlantAlreadyInCollection())) else KeepTyped(t)
    else KeepTyped(t)
  }

  /** The server's messages mention "unique": the message itself, or one of
      the messages of a list. */
  predicate MentionsUnique(nfe: Json) {
    match nfe
    case JStr(m) => Contains(m, UNIQUE)
    case JArr(items) => exists i :: 0 <= i < |items| && items[i].JStr? && Contains(items[i].s, UNIQUE)
    case _ => false
  }

  /** The catch block of `addPlantToCollection` testing the messages for
      "unique", as the duplicate-entry check intends. */
  function AddPlantFailure(t: Thrown): (r: Option<Thrown>)
    ensures IsAxiosStatus(t, 400) ==>
      (r.Some? <==> TruthyOpt(Prop(t.response.value.data, NON_FIELD_ERRORS))
                    && MentionsUnique(Prop(t.response.value.data, NON_FIELD_ERRORS).value))
    ensures IsAxiosStatus(t, 400) && r.Some? ==> r.value == App(PlantAlreadyInCollection())
    ensures r.Some? ==> r.value.App?
    ensures !IsAxiosStatus(t, 400) ==> r == KeepTyped(t)
  {
    if IsAxiosStatus(t, 400) && TruthyOpt(Prop(t.response.value.data, NON_FIELD_ERRORS))
       && MentionsUnique(Prop(t.response.value.data, NON_FIELD_ERRORS).value)
    then Some(App(PlantAlreadyInCollection()))
    else KeepTyped(t)
  }

  /** As written, a list of messages never reports the duplicate entry: the
      error is swallowed whatever the list says. */
  lemma AddPlantAsWrittenIgnoresLists(t: Thrown, items: seq<Json>)
    requires IsAxiosStatus(t, 400) && Prop(t.response.value.data, NON_FIELD_ERRORS) == Some(JArr(items))
    ensures AddPlantFailureAsWritten(t) == None
  {
    LetterKeyNotInArray(items, UNIQUE);
  }

  /** The duplicate-entry answer of the server, as a list of messages. */
  const DUPLICATE_MESSAGE: string := "The fields user, plant must make a unique set."

  /** The discrepancy on the server's duplicate-entry answer. */
  lemma AddPlantDiscrepancy(response: ErrorResponse)
    requires response == ErrorResponse(400, JObj(map[NON_FIELD_ERRORS := JArr([JStr(DUPLICATE_MESSAGE)])]))
    ensures AddPlantFailureAsWritten(AxiosFailure("ERR_BAD_REQUEST", Some(response))) == None
    ensures AddPlantFailure(AxiosFailure("ERR_BAD_REQUEST", Some(response))) == Some(App(PlantAlreadyInCollection()))
  {
    var t := AxiosFailure("ERR_BAD_REQUEST", Some(response));
    AddPlantAsWrittenIgnoresLists(t, [JStr(DUPLICATE_MESSAGE)]);
    assert OccursAt(DUPLICATE_MESSAGE, UNIQUE, 35);
    assert [JStr(DUPLICATE_MESSAGE)][0].JStr? && Contains([JStr(DUPLICATE_MESSAGE)][0].s, UNIQUE);
  }

  /** `addPlantToCollection(user, plant)`, with the catch block as written. */
  method AddPlantToCollection<B>(s: Session, reply: Transport<B>, script: seq<Transport<RefreshTokenResponse>>)
    returns (r: Settled<Option<B>>)
    modifies s
    ensures match RequestOutcome(None, reply, script)
      case Resolved(_, data) => r == Fulfilled(Some(data))
      case Rejected(t) =>
        r == (if AddPlantFailureAsWritten(t).Some? then Raised(AddPlantFailureAsWritten(t).value) else Fulfilled(None))
      case Exhausted => r == Undetermined
    ensures StateAfterRequest(old(s.State()), None, reply, script).Some? ==>
      s.State() == StateAfterRequest(old(s.State()), None, reply, script).value
  {
    var o := Request(s, None, reply, script);
    match o
    case Resolved(_, data) =>
      r := Fulfilled(Some(data));
    case Rejected(t) =>
      var e := AddPlantFailureAsWritten(t);
      r := if e.Some? then Raised(e.value) else Fulfilled(None);
    case Exhausted =>
      r := Undetermined;
  }

  /** `deleteUserPlant(id)`: `true` on success, `false` on every failure; it
      never throws. */
  method DeleteUserPlant<B>(s: Session, reply: Transport<B>, script: seq<Transport<RefreshTokenResponse>>)
    returns (r: Settled<bool>)
    modifies s
    ensures !r.Raised?
    ensures r == Fulfilled(true) <==> reply.Delivered?
    ensures r == Undetermined <==> RequestOutcome(None, reply, script).Exhausted?
    ensures StateAfterRequest(old(s.State()), None, reply, script).Some? ==>
      s.State() == StateAfterRequest(old(s.State()), None, reply, script).value
  {
    RequestOutcomeCases(s.State(), None, reply, script);
    var o := Request(s, None, reply, script);
    match o
    case Resolved(_, _) =>
      r := Fulfilled(true);
    case Rejected(_) =>
      r := Fulfilled(false);
    case Exhausted =>
      r := Undetermined;
  }

  /** The `time` field of a care schedule: `${hours}:${minutes}`, without
      zero padding. */
  function CareTime(hours: nat, minutes: nat): string {
    NatToString(hours) + ":" + NatToString(minutes)
  }

  /** The time splits on ':' into exactly the two numbers it was built from. */
  lemma CareTimeSplits(hours: nat, minutes: nat)
    ensures Split(CareTime(hours, minutes), ':') == [NatToString(hours), NatToString(minutes)]
  {
    var h, m := NatToString(hours), NatToString(minutes);
    assert ':' !in h && ':' !in m;
    assert CareTime(hours, minutes) == h + [':'] + m;
    SplitAfterPiece(h, m, ':');
    SplitWithoutSep(m, ':');
  }

  /** The body `createPlantCare` sends: `parseInt` of the selected plant id
      (NaN, serialised as `null`, when it has no leading digits), the care
      type, the time and the weekdays. */
  function PlantCarePayload(userPlantId: string, careType: string, hours: nat, minutes: nat,
                            repeat: seq<string>): (p: map<string, Json>)
    ensures p.Keys == {"user_plant", "type", "time", "repeat"}
    ensures p["user_plant"] == match ParseInt(userPlantId) case Some(n) => JNum(n) case None => JNull
    ensures p["time"] == JStr(CareTime(hours, minutes))
    ensures p["repeat"].JArr? && |p["repeat"].items| == |repeat|
    ensures forall i :: 0 <= i < |repeat| ==> p["repeat"].items[i] == JStr(repeat[i])
  {
    map["user_plant" := (match ParseInt(userPlantId) case Some(n) => JNum(n) case None => JNull),
        "type" := JStr(careType),
        "time" := JStr(CareTime(hours, minutes)),
        "repeat" := JArr(seq(|repeat|, i requires 0 <= i < |repeat| => JStr(repeat[i])))]
  }

  /** A plant id rendered from a number is sent back as that number. */
  lemma PayloadKeepsPlantId(id: nat, careType: string, hours: nat, minutes: nat, repeat: seq<string>)
    ensures PlantCarePayload(NatToString(id), careType, hours, minutes, repeat)["user_plant"] == JNum(id)
  {
    ParseIntOfNatToString(id);
  }

  /** `createPlantCare(schema)`: `payload` is the body sent. `hours` and
      `minutes` are the `getHours()` and `getMinutes()` of the chosen time. */
  method CreatePlantCare<B>(s: Session, userPlantId: string, careType: string, hours: nat, minutes: nat,
                            repeat: seq<string>, reply: Transport<B>, script: seq<Transport<RefreshTokenResponse>>)
    returns (payload: map<string, Json>, r: Settled<Option<B>>)
    requires hours < 24 && minutes < 60
    modifies s
    ensures payload == PlantCarePayload(userPlantId, careType, hours, minutes, repeat)
    ensures r == SettleKeepingTyped(RequestOutcome(None, reply, script))
    ensures StateAfterRequest(old(s.State()), None, reply, script).Some? ==>
      s.State() == StateAfterRequest(old(s.State()), None, reply, script).value
  {
    payload := PlantCarePayload(userPlantId, careType, hours, minutes, repeat);
    r := FetchKeepingTyped(s, None, reply, script);
  }
}

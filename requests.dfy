/**
 * The HTTP request layer of subscriptions_backend/api/http/types/subscription.go:
 * turning decoded request bodies, URL parameters and query strings into
 * domain records and filters, with the BadRequest messages the handlers send.
 *
 * The parsers the handlers call (uuid.Parse, parseMonthYear over time.Parse,
 * strconv.Atoi) are parameters: each either yields a value or an error text,
 * which the handlers paste after their own prefix.
 */
module Requests {
  import opened Wrappers
  import opened Errors
  import opened Domain
  import opened Storage

  type UuidParser = string -> Result<Uuid, string>
  type DateParser = string -> Result<Date, string>
  type IntParser = string -> Result<int, string>

  const DecodeUuidPrefix := "error while decoding uuid: "
  const DecodeStartPrefix := "error while decoding startDate: "
  const DecodeEndPrefix := "error while decoding endDate: "
  const DecodePricePrefix := "error while decoding price: "
  const NoFieldsMessage := "no fields to update"
  const StartRequiredMessage := "start_date is required for the request"

  const UserIdParam := "user_id"
  const StartDateParam := "start_date"
  const EndDateParam := "end_date"
  const PriceParam := "price"
  const ServiceNameParam := "service_name"

  /** url.Values: every query parameter with all the values it was given. */
  type Query = map<string, seq<string>>

  /** url.Values.Get: the first value of the parameter, or "" when it has none. */
  function Get(q: Query, key: string): (v: string)
    ensures key !in q ==> v == ""
    ensures v != "" ==> key in q && |q[key]| > 0 && v == q[key][0]
    ensures key in q && |q[key]| > 0 ==> v == q[key][0]
  {
    if key in q && q[key] != [] then q[key][0] else ""
  }

  /** The parameter is given (not empty) and its parser rejects it. */
  predicate Fails<T>(q: Query, key: string, parse: string -> Result<T, string>)
  {
    Get(q, key) != "" && parse(Get(q, key)).Err?
  }

  /** An optional filter field holds exactly the parsed value of a non-empty parameter. */
  predicate Bound<T(==)>(given: string, parse: string -> Result<T, string>, field: Option<T>)
  {
    (field.Some? <==> given != "") && (field.Some? ==> parse(given) == Ok(field.value))
  }

  /** An optional text field holds exactly a non-empty parameter. */
  predicate BoundText(given: string, field: Option<string>)
  {
    (field.Some? <==> given != "") && (field.Some? ==> field.value == given)
  }

  // ***** [POST] CreateSubscription *****

  /** PostCreateSubscriptionRequest as decoded from JSON; an omitted end_date is None. */
  datatype CreateRequest = CreateRequest(
    serviceName: string,
    price: int,
    userId: string,
    startDate: string,
    endDate: Option<string>)

  /**
   * PostCreateSubscriptionRequest.ToDomain: the user id, the start date and a
   * given end date are parsed in that order and the first failure is reported;
   * the name and price are copied as they are, and the id is left nil for the
   * service to mint.
   */
  function CreateToDomain(r: CreateRequest, parseUuid: UuidParser, parseDate: DateParser): (res: Result<Subscription, Error>)
    ensures parseUuid(r.userId).Err? ==> res == Err(BadRequest(DecodeUuidPrefix + parseUuid(r.userId).error))
    ensures parseUuid(r.userId).Ok? && parseDate(r.startDate).Err? ==>
              res == Err(BadRequest(DecodeStartPrefix + parseDate(r.startDate).error))
    ensures parseUuid(r.userId).Ok? && parseDate(r.startDate).Ok? && r.endDate.Some? && parseDate(r.endDate.value).Err? ==>
              res == Err(BadRequest(DecodeEndPrefix + parseDate(r.endDate.value).error))
    ensures res.Ok? <==> parseUuid(r.userId).Ok? && parseDate(r.startDate).Ok?
                         && (r.endDate.Some? ==> parseDate(r.endDate.value).Ok?)
    ensures res.Ok? ==> && res.value.id == NilUuid
                        && res.value.serviceName == r.serviceName && res.value.price == r.price
                        && parseUuid(r.userId) == Ok(res.value.userId)
                        && parseDate(r.startDate) == Ok(res.value.startDate)
                        && (res.value.endDate.Some? <==> r.endDate.Some?)
                        && (r.endDate.Some? ==> parseDate(r.endDate.value) == Ok(res.value.endDate.value))
  {
    match parseUuid(r.userId)
    case Err(e) => Err(BadRequest(DecodeUuidPrefix + e))
    case Ok(userId) =>
      match parseDate(r.startDate)
      case Err(e) => Err(BadRequest(DecodeStartPrefix + e))
      case Ok(start) =>
        if r.endDate.None? then
          Ok(Subscription(NilUuid, r.serviceName, r.price, userId, start, None))
        else
          match parseDate(r.endDate.value)
          case Err(e) => Err(BadRequest(DecodeEndPrefix + e))
          case Ok(end) => Ok(Subscription(NilUuid, r.serviceName, r.price, userId, start, Some(end)))
  }

  /** The request a client sends for a subscription, given how it writes ids and months. */
  function CreateRequestFor(s: Subscription, formatUuid: Uuid -> string, formatDate: Date -> string): CreateRequest
  {
    CreateRequest(s.serviceName, s.price, formatUuid(s.userId), formatDate(s.startDate),
                  if s.endDate.Some? then Some(formatDate(s.endDate.value)) else None)
  }

  /**
   * Whatever a client writes in its create request, with parsers that read
   * back what the client formats, comes back as the same subscription, the id
   * aside.
   */
  lemma CreateRoundTrip(s: Subscription, formatUuid: Uuid -> string, parseUuid: UuidParser,
                        formatDate: Date -> string, parseDate: DateParser)
    requires forall u: Uuid :: parseUuid(formatUuid(u)) == Ok(u)
    requires forall d: Date :: parseDate(formatDate(d)) == Ok(d)
    ensures CreateToDomain(CreateRequestFor(s, formatUuid, formatDate), parseUuid, parseDate) == Ok(s.(id := NilUuid))
  {
    var r := CreateRequestFor(s, formatUuid, formatDate);
    assert parseUuid(r.userId) == Ok(s.userId);
    assert parseDate(r.startDate) == Ok(s.startDate);
    if s.endDate.Some? {
      assert parseDate(r.endDate.value) == Ok(s.endDate.value);
    }
  }

  // ***** [GET] GetSubscriptionByID and [DELETE] DeleteSubscriptionByID *****

  /**
   * GetSubscriptionByIDHandlerRequest, and DeleteSubscriptionByIDHandlerRequest
   * which is the same: a record holding only the id from the URL, or BadRequest.
   */
  function SubscriptionIdRequest(param: string, parseUuid: UuidParser): (r: Result<Subscription, Error>)
    ensures r.Err? <==> parseUuid(param).Err?
    ensures r.Err? ==> r.error == BadRequest(DecodeUuidPrefix + parseUuid(param).error)
    ensures r.Ok? ==> parseUuid(param) == Ok(r.value.id) && r.value == ZeroSubscription.(id := r.value.id)
  {
    match parseUuid(param)
    case Err(e) => Err(BadRequest(DecodeUuidPrefix + e))
    case Ok(id) => Ok(ZeroSubscription.(id := id))
  }

  // ***** [PATCH] PatchSubscriptionByID *****

  /** The JSON body of a patch: every field may be absent. */
  datatype PatchBody = PatchBody(serviceName: Option<string>, price: Option<int>, endDate: Option<string>)

  /** PatchSubscriptionByIDRequest: the id from the URL and the body's fields. */
  datatype PatchRequest = PatchRequest(id: Uuid, serviceName: Option<string>, price: Option<int>, endDate: Option<string>)

  predicate HasField(b: PatchBody)
  {
    b.serviceName.Some? || b.price.Some? || b.endDate.Some?
  }

  /**
   * PatchSubscriptionByIDHandlerRequest after the body is decoded: the URL id
   * is parsed first, then a body with no field at all is refused.
   */
  function PatchHandlerRequest(param: string, body: PatchBody, parseUuid: UuidParser): (r: Result<PatchRequest, Error>)
    ensures parseUuid(param).Err? ==> r == Err(BadRequest(DecodeUuidPrefix + parseUuid(param).error))
    ensures parseUuid(param).Ok? && !HasField(body) ==> r == Err(BadRequest(NoFieldsMessage))
    ensures r.Ok? <==> parseUuid(param).Ok? && HasField(body)
    ensures r.Ok? ==> parseUuid(param) == Ok(r.value.id)
                      && r.value.serviceName == body.serviceName && r.value.price == body.price
                      && r.value.endDate == body.endDate
  {
    match parseUuid(param)
    case Err(e) => Err(BadRequest(DecodeUuidPrefix + e))
    case Ok(id) =>
      if !HasField(body) then Err(BadRequest(NoFieldsMessage))
      else Ok(PatchRequest(id, body.serviceName, body.price, body.endDate))
  }

  /** The domain record of a patch once its end date is parsed: absent fields keep Go's zero values. */
  function PatchRecord(r: PatchRequest, end: Option<Date>): (s: Subscription)
    ensures s.id == r.id && s.userId == NilUuid && s.startDate == ZeroDate && s.endDate == end
    ensures s.serviceName == if r.serviceName.Some? then r.serviceName.value else ""
    ensures s.price == if r.price.Some? then r.price.value else 0
  {
    Subscription(r.id, if r.serviceName.Some? then r.serviceName.value else "",
                 if r.price.Some? then r.price.value else 0, NilUuid, ZeroDate, end)
  }

  /**
   * PatchSubscriptionByIDRequest.ToDomain: a given end date is parsed first
   * (BadRequest if it fails), then the record is filled field by field.
   */
  method PatchToDomain(r: PatchRequest, parseDate: DateParser) returns (res: Result<Subscription, Error>)
    ensures r.endDate.Some? && parseDate(r.endDate.value).Err? ==>
              res == Err(BadRequest(DecodeEndPrefix + parseDate(r.endDate.value).error))
    ensures r.endDate.None? ==> res == Ok(PatchRecord(r, None))
    ensures r.endDate.Some? && parseDate(r.endDate.value).Ok? ==>
              res == Ok(PatchRecord(r, Some(parseDate(r.endDate.value).value)))
  {
    var end: Option<Date> := None;
    if r.endDate.Some? {
      var parsedEnd := parseDate(r.endDate.value);
      if parsedEnd.Err? {
        return Err(BadRequest(DecodeEndPrefix + parsedEnd.error));
      }
      end := Some(parsedEnd.value);
    }
    var subs := ZeroSubscription.(id := r.id);
    if r.serviceName.Some? {
      subs := subs.(serviceName := r.serviceName.value);
    }
    if r.price.Some? {
      subs := subs.(price := r.price.value);
    }
    if end.Some? {
      subs := subs.(endDate := end);
    }
    res := Ok(subs);
  }

  /**
   * End to end, a patch of the price alone wipes the stored service name: the
   * record carries "" for the absent name and the store binds it as a value.
   */
  lemma PriceOnlyPatchWipesServiceName(row: Subscription, p: int)
    requires row.serviceName != ""
    ensures var r := PatchRequest(row.id, None, Some(p), None);
            var patched := ApplyPatch(row, PatchRecord(r, None));
            patched.serviceName == "" && patched.price == p && patched.serviceName != row.serviceName
  {
  }

  /** With the request's own absent fields handed to the merge, every absent field keeps its stored value. */
  lemma IntendedPatchKeepsAbsentFields(row: Subscription, r: PatchRequest, end: Option<Date>)
    requires r.id == row.id && (r.endDate.None? ==> end.None?)
    ensures var merged := MergePatch(row, r.serviceName, r.price, end);
            && (r.serviceName.None? ==> merged.serviceName == row.serviceName)
            && (r.price.None? ==> merged.price == row.price)
            && (r.endDate.None? ==> merged.endDate == row.endDate)
            && (r.serviceName.Some? ==> merged.serviceName == r.serviceName.value)
            && (r.price.Some? ==> merged.price == r.price.value)
  {
    MergePatchKeepsUnsetFields(row, r.serviceName, r.price, end);
  }

  // ***** [GET] GetListOfSubscriptions *****

  /**
   * GetListOfSubscriptionsHandlerRequest: each parameter that is missing or
   * empty leaves its field unconstrained; the others are parsed in the order
   * user_id, start_date, end_date, price, and the first failure is reported.
   * service_name is taken as it is.
   */
  method GetListOfSubscriptionsHandlerRequest(q: Query, parseUuid: UuidParser, parseDate: DateParser, atoi: IntParser)
    returns (res: Result<SubscriptionFilter, Error>)
    ensures Fails(q, UserIdParam, parseUuid) ==>
              res == Err(BadRequest(DecodeUuidPrefix + parseUuid(Get(q, UserIdParam)).error))
    ensures !Fails(q, UserIdParam, parseUuid) && Fails(q, StartDateParam, parseDate) ==>
              res == Err(BadRequest(DecodeStartPrefix + parseDate(Get(q, StartDateParam)).error))
    ensures !Fails(q, UserIdParam, parseUuid) && !Fails(q, StartDateParam, parseDate) && Fails(q, EndDateParam, parseDate) ==>
              res == Err(BadRequest(DecodeEndPrefix + parseDate(Get(q, EndDateParam)).error))
    ensures !Fails(q, UserIdParam, parseUuid) && !Fails(q, StartDateParam, parseDate) && !Fails(q, EndDateParam, parseDate)
            && Fails(q, PriceParam, atoi) ==>
              res == Err(BadRequest(DecodePricePrefix + atoi(Get(q, PriceParam)).error))
    ensures res.Ok? <==> !Fails(q, UserIdParam, parseUuid) && !Fails(q, StartDateParam, parseDate)
                         && !Fails(q, EndDateParam, parseDate) && !Fails(q, PriceParam, atoi)
    ensures res.Ok? ==> && Bound(Get(q, UserIdParam), parseUuid, res.value.userId)
                        && Bound(Get(q, StartDateParam), parseDate, res.value.startDate)
                        && Bound(Get(q, EndDateParam), parseDate, res.value.endDate)
                        && Bound(Get(q, PriceParam), atoi, res.value.price)
                        && BoundText(Get(q, ServiceNameParam), res.value.serviceName)
    ensures (&& Get(q, UserIdParam) == "" && Get(q, StartDateParam) == "" && Get(q, EndDateParam) == ""
             && Get(q, PriceParam) == "" && Get(q, ServiceNameParam) == "") ==> res == Ok(EmptyFilter)
  {
    var filter := EmptyFilter;
    var u := Get(q, UserIdParam);
    if u != "" {
      var parsedUuid := parseUuid(u);
      if parsedUuid.Err? {
        return Err(BadRequest(DecodeUuidPrefix + parsedUuid.error));
      }
      filter := filter.(userId := Some(parsedUuid.value));
    }
    var s := Get(q, StartDateParam);
    if s != "" {
      var parsedStart := parseDate(s);
      if parsedStart.Err? {
        return Err(BadRequest(DecodeStartPrefix + parsedStart.error));
      }
      filter := filter.(startDate := Some(parsedStart.value));
    }
    var e := Get(q, EndDateParam);
    if e != "" {
      var parsedEnd := parseDate(e);
      if parsedEnd.Err? {
        return Err(BadRequest(DecodeEndPrefix + parsedEnd.error));
      }
      filter := filter.(endDate := Some(parsedEnd.value));
    }
    var p := Get(q, PriceParam);
    if p != "" {
      var parsedPrice := atoi(p);
      if parsedPrice.Err? {
        return Err(BadRequest(DecodePricePrefix + parsedPrice.error));
      }
      filter := filter.(price := Some(parsedPrice.value));
    }
    var name := Get(q, ServiceNameParam);
    if name != "" {
      filter := filter.(serviceName := Some(name));
    }
    res := Ok(filter);
  }

  // ***** [GET] GetTotalCost *****

  /**
   * GetTotalCostHandlerRequest: user_id and service_name are optional as in
   * the list; start_date and end_date must both be given and parse. A missing
   * end_date is reported with the start_date message, as the handler does.
   */
  method GetTotalCostHandlerRequest(q: Query, parseUuid: UuidParser, parseDate: DateParser)
    returns (res: Result<TotalCostFilter, Error>)
    ensures Fails(q, UserIdParam, parseUuid) ==>
              res == Err(BadRequest(DecodeUuidPrefix + parseUuid(Get(q, UserIdParam)).error))
    ensures !Fails(q, UserIdParam, parseUuid) && Get(q, StartDateParam) == "" ==>
              res == Err(BadRequest(StartRequiredMessage))
    ensures !Fails(q, UserIdParam, parseUuid) && Fails(q, StartDateParam, parseDate) ==>
              res == Err(BadRequest(DecodeStartPrefix + parseDate(Get(q, StartDateParam)).error))
    ensures !Fails(q, UserIdParam, parseUuid) && Get(q, StartDateParam) != "" && !Fails(q, StartDateParam, parseDate)
            && Get(q, EndDateParam) == "" ==>
              res == Err(BadRequest(StartRequiredMessage))
    ensures !Fails(q, UserIdParam, parseUuid) && Get(q, StartDateParam) != "" && !Fails(q, StartDateParam, parseDate)
            && Fails(q, EndDateParam, parseDate) ==>
              res == Err(BadRequest(DecodeEndPrefix + parseDate(Get(q, EndDateParam)).error))
    ensures res.Ok? <==> !Fails(q, UserIdParam, parseUuid)
                         && Get(q, StartDateParam) != "" && parseDate(Get(q, StartDateParam)).Ok?
                         && Get(q, EndDateParam) != "" && parseDate(Get(q, EndDateParam)).Ok?
    ensures res.Ok? ==> && parseDate(Get(q, StartDateParam)) == Ok(res.value.startDate)
                        && parseDate(Get(q, EndDateParam)) == Ok(res.value.endDate)
                        && Bound(Get(q, UserIdParam), parseUuid, res.value.userId)
                        && BoundText(Get(q, ServiceNameParam), res.value.serviceName)
  {
    var userId: Option<Uuid> := None;
    var u := Get(q, UserIdParam);
    if u != "" {
      var parsedUuid := parseUuid(u);
      if parsedUuid.Err? {
        return Err(BadRequest(DecodeUuidPrefix + parsedUuid.error));
      }
      userId := Some(parsedUuid.value);
    }
    var serviceName: Option<string> := None;
    var name := Get(q, ServiceNameParam);
    if name != "" {
      serviceName := Some(name);
    }
    var s := Get(q, StartDateParam);
    if s == "" {
      return Err(BadRequest(StartRequiredMessage));
    }
    var parsedStart := parseDate(s);
    if parsedStart.Err? {
      return Err(BadRequest(DecodeStartPrefix + parsedStart.error));
    }
    var e := Get(q, EndDateParam);
    if e == "" {
      return Err(BadRequest(StartRequiredMessage));
    }
    var parsedEnd := parseDate(e);
    if parsedEnd.Err? {
      return Err(BadRequest(DecodeEndPrefix + parsedEnd.error));
    }
    res := Ok(TotalCostFilter(parsedStart.value, parsedEnd.value, userId, serviceName));
  }
}

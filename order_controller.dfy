/**
 * The order-created handler of the delivery bridge: the eligibility filter
 * (shipping-method allow-list, first channel-priced line item), the channel
 * lookup, the builder of the delivery provider's request body, the claim
 * record of the provider token, and the dispatch.
 *
 * The commerce platform's channel lookup, the provider's HTTP endpoint and the
 * clock are collaborators passed in an `Env` value. The handler's effect on
 * the outside world is recorded as the sequence of calls it makes, so that
 * "no lookup" and "no dispatch" can be stated.
 */
module OrderController {
  import opened Wrappers
  import opened Text

  // ---------------------------------------------------------------------------
  // Configuration and collaborators
  // ---------------------------------------------------------------------------

  /**
   * The process configuration the handler reads: the comma-separated list of
   * eligible shipping-method ids (`SHIPPING_METHOD_IDS`), the locale of the
   * pickup business name (`DEFAULT_LOCALE`), and the provider developer and
   * key ids the token names (`DOORDASH_DEVELOPER_ID`, `DOORDASH_KEY_ID`).
   * A variable that is not set is `None`.
   */
  datatype Config = Config(
    shippingMethodIds: Option<string>,
    defaultLocale: string,
    developerId: Option<string>,
    keyId: Option<string>)

  /** What the commerce platform's channel read yields for a channel id. */
  datatype LookupResult =
    | Found(channel: Channel)
    | NotFound                     // the response carries no channel body
    | LookupError(error: string)   // the request was rejected

  /** What the provider's delivery-creation endpoint yields. */
  datatype DispatchResult =
    | Accepted(data: string)       // the provider's response body
    | Rejected(error: string)      // transport failure or a non-success status

  /** One call the handler makes to the outside world. */
  datatype Call =
    | LookupChannel(channelId: string)
    | PostDelivery(claims: Claims, request: DeliveryRequest)

  /**
   * The handler's collaborators: configuration, the channel read, the
   * provider's endpoint (given the token's claims and the body) and one
   * reading of the clock in milliseconds since the epoch.
   */
  datatype Env = Env(
    config: Config,
    lookup: string -> LookupResult,
    dispatch: (Claims, DeliveryRequest) -> DispatchResult,
    nowMillis: int)

  // ---------------------------------------------------------------------------
  // Commerce-platform records, as far as the handler reads them
  // ---------------------------------------------------------------------------

  datatype ChannelReference = ChannelReference(id: string)

  datatype Price = Price(channel: Option<ChannelReference>)

  datatype LineItem = LineItem(price: Option<Price>)

  /**
   * A postal address. Street name, city, postal code and the names are
   * modelled as always present; the other parts may be missing.
   */
  datatype Address = Address(
    streetName: string,
    streetNumber: Option<string>,
    city: string,
    state: Option<string>,
    postalCode: string,
    company: Option<string>,
    firstName: string,
    lastName: string,
    phone: Option<string>)

  /** An order; `deliveryInstructions` is the custom field of that name. */
  datatype Order = Order(
    id: string,
    orderNumber: string,
    shippingMethodId: Option<string>,
    shippingAddress: Option<Address>,
    totalCentAmount: int,
    lineItems: seq<LineItem>,
    deliveryInstructions: Option<string>)

  /**
   * A channel (pickup location); `name` is its localized name, `phoneNumber`
   * and `pickupInstructions` are its custom fields of those names.
   */
  datatype Channel = Channel(
    id: string,
    name: map<string, string>,
    address: Option<Address>,
    phoneNumber: Option<string>,
    pickupInstructions: Option<string>)

  /** The decoded event as the handler sees it: its `type` and `order`. */
  datatype EventData = EventData(eventType: Option<string>, order: Option<Order>)

  // ---------------------------------------------------------------------------
  // Provider request and token claims
  // ---------------------------------------------------------------------------

  /** The body of the provider's delivery-creation request. */
  datatype DeliveryRequest = DeliveryRequest(
    externalDeliveryId: string,
    pickupAddress: string,
    pickupBusinessName: string,
    pickupPhoneNumber: string,
    pickupInstructions: string,
    pickupReferenceTag: string,
    dropoffAddress: string,
    dropoffBusinessName: string,
    dropoffPhoneNumber: string,
    dropoffInstructions: string,
    orderValue: int)

  /** The registered claims of the provider token (section 4.1 of RFC 7519). */
  datatype Claims = Claims(
    aud: string,
    iss: Option<string>,
    kid: Option<string>,
    exp: int,
    iat: int)

  const PlaceholderPhone: string := "+16505555555"
  const DefaultPickupName: string := "Default Pickup Location"
  const TokenLifetimeSeconds: int := 300
  const MissingOrderMessage: string := "Bad request: No order data in the message"

  /**
   * The token claims for one clock reading: audience `doordash`, issuer and
   * key id from the configuration, issued-at the reading in whole seconds
   * (rounded down) and expiry 300 seconds later.
   */
  function DoorDashClaims(config: Config, nowMillis: int): (c: Claims)
    ensures c.aud == "doordash" && c.iss == config.developerId && c.kid == config.keyId
    ensures c.iat * 1000 <= nowMillis < (c.iat + 1) * 1000
    ensures c.exp == c.iat + TokenLifetimeSeconds
  {
    Claims(
      aud := "doordash",
      iss := config.developerId,
      kid := config.keyId,
      exp := (nowMillis + TokenLifetimeSeconds * 1000) / 1000,
      iat := nowMillis / 1000)
  }

  // ---------------------------------------------------------------------------
  // Eligibility filter
  // ---------------------------------------------------------------------------

  /** The configured list, split on commas and each entry trimmed. */
  function AllowedShippingMethods(config: Config): (ids: seq<string>)
    ensures |ids| == |Split(Or(config.shippingMethodIds, ""), ',')| >= 1
  {
    var parts := Split(Or(config.shippingMethodIds, ""), ',');
    seq(|parts|, i requires 0 <= i < |parts| => Trim(parts[i]))
  }

  /**
   * The allow-list has one entry per comma-separated piece of the
   * configuration, and every entry is free of commas and of whitespace at
   * either end.
   */
  lemma AllowListEntriesTrimmed(config: Config)
    ensures var ids := AllowedShippingMethods(config);
      && |ids| == |Split(Or(config.shippingMethodIds, ""), ',')|
      && forall i :: 0 <= i < |ids| ==> IsTrimmedEntry(ids[i])
  {
    var parts := Split(Or(config.shippingMethodIds, ""), ',');
    var ids := AllowedShippingMethods(config);
    forall i | 0 <= i < |ids| ensures IsTrimmedEntry(ids[i]) {
      TrimKeepsOnlyOwnChars(parts[i]);
    }
  }

  /** An allow-list entry: no comma, and no whitespace at either end. */
  predicate IsTrimmedEntry(id: string)
  {
    ',' !in id && (id == [] || (!IsWhitespace(id[0]) && !IsWhitespace(id[|id| - 1])))
  }

  /** The order names a shipping method, and that id is in the allow-list. */
  predicate ShippingMethodEligible(config: Config, order: Order)
  {
    Truthy(order.shippingMethodId) && order.shippingMethodId.value in AllowedShippingMethods(config)
  }

  /**
   * An eligible shipping-method id is non-empty and left unchanged by
   * trimming: an id padded with whitespace is never eligible.
   */
  lemma EligibleIdIsTrimmed(config: Config, order: Order)
    requires ShippingMethodEligible(config, order)
    ensures order.shippingMethodId.Some? && order.shippingMethodId.value != ""
    ensures Trim(order.shippingMethodId.value) == order.shippingMethodId.value
  {
    var id := order.shippingMethodId.value;
    var parts := Split(Or(config.shippingMethodIds, ""), ',');
    AllowListMembership(config, id);
    var i :| 0 <= i < |parts| && Trim(parts[i]) == id;
    TrimIdempotent(parts[i]);
  }

  /** The channel id of a line item's price, when it has a non-empty one. */
  function ChannelIdOf(item: LineItem): (id: Option<string>)
    ensures id.Some? ==> id.value != ""
  {
    if item.price.Some? && item.price.value.channel.Some? && item.price.value.channel.value.id != ""
    then Some(item.price.value.channel.value.id)
    else None
  }

  /**
   * The channel id of the first line item, in the given order, whose price
   * carries a non-empty channel id; `None` when no line item has one.
   */
  function FirstChannelId(items: seq<LineItem>): (id: Option<string>)
    ensures id.None? <==> forall k :: 0 <= k < |items| ==> ChannelIdOf(items[k]).None?
    ensures id.Some? ==> exists k :: 0 <= k < |items| && ChannelIdOf(items[k]) == id &&
                                     forall j :: 0 <= j < k ==> ChannelIdOf(items[j]).None?
  {
    if items == [] then None
    else if ChannelIdOf(items[0]).Some? then
      ChannelIdOf(items[0])
    else
      var id := FirstChannelId(items[1..]);
      assert forall k :: 1 <= k < |items| ==> items[k] == items[1..][k - 1];
      if id.Some? then
        var k :| 0 <= k < |items[1..]| && ChannelIdOf(items[1..][k]) == id &&
          forall j :: 0 <= j < k ==> ChannelIdOf(items[1..][j]).None?;
        assert ChannelIdOf(items[k + 1]) == id;
        id
      else
        id
  }

  /**
   * The handler's scan of the line items: walk them in order and stop at the
   * first price with a non-empty channel id.
   */
  method FindChannelId(items: seq<LineItem>) returns (channelId: Option<string>)
    ensures channelId == FirstChannelId(items)
  {
    channelId := None;
    var i := 0;
    while i < |items|
      invariant 0 <= i <= |items|
      invariant FirstChannelId(items[i..]) == FirstChannelId(items)
      invariant channelId == None
    {
      var item := items[i];
      if item.price.Some? && item.price.value.channel.Some? && item.price.value.channel.value.id != "" {
        channelId := Some(item.price.value.channel.value.id);
        assert items[i..][0] == item;
        break;
      }
      assert items[i..][1..] == items[i + 1..];
      i := i + 1;
    }
  }

  /**
   * First channel wins: once a prefix of the line items carries a channel,
   * the items after it never change the chosen channel.
   */
  lemma {:induction false} FirstChannelIgnoresLaterItems(a: seq<LineItem>, b: seq<LineItem>)
    requires FirstChannelId(a).Some?
    ensures FirstChannelId(a + b) == FirstChannelId(a)
  {
    assert a != [];
    assert (a + b)[0] == a[0];
    if ChannelIdOf(a[0]).None? {
      assert (a + b)[1..] == a[1..] + b;
      FirstChannelIgnoresLaterItems(a[1..], b);
    }
  }

  /** Line items without a channel in front of the list are skipped over. */
  lemma {:induction false} ChannelFreePrefixSkipped(a: seq<LineItem>, b: seq<LineItem>)
    requires forall k :: 0 <= k < |a| ==> ChannelIdOf(a[k]).None?
    ensures FirstChannelId(a + b) == FirstChannelId(b)
  {
    if a != [] {
      assert (a + b)[0] == a[0];
      assert (a + b)[1..] == a[1..] + b;
      ChannelFreePrefixSkipped(a[1..], b);
    } else {
      assert a + b == b;
    }
  }

  // ---------------------------------------------------------------------------
  // Delivery request builder
  // ---------------------------------------------------------------------------

  /**
   * The fixed-shape address line `<first> <second> <city>, <state> <postal>`:
   * every separator is kept even when the part beside it is empty.
   */
  function AddressLine(first: string, second: string, city: string, state: string, postalCode: string): string
  {
    first + " " + second + " " + city + ", " + state + " " + postalCode
  }

  /**
   * The dropoff address: street name first, then street number; it begins
   * with the street name, ends with the postal code, and its five separator
   * characters are kept whatever parts are missing.
   */
  function DropoffAddress(a: Address): (line: string)
    ensures |line| == |a.streetName| + |Or(a.streetNumber, "")| + |a.city| + |Or(a.state, "")| + |a.postalCode| + 5
    ensures line[..|a.streetName|] == a.streetName
    ensures line[|line| - |a.postalCode|..] == a.postalCode
  {
    AddressLine(a.streetName, Or(a.streetNumber, ""), a.city, Or(a.state, ""), a.postalCode)
  }

  /**
   * The pickup address: street number first, then street name; it is empty
   * exactly when the channel has no address, and otherwise ends with the
   * postal code.
   */
  function PickupAddress(channel: Channel): (line: string)
    ensures line == "" <==> channel.address.None?
    ensures channel.address.Some? ==>
      |line| >= |channel.address.value.postalCode| + 5 &&
      line[|line| - |channel.address.value.postalCode|..] == channel.address.value.postalCode
  {
    match channel.address
    case None => ""
    case Some(a) => AddressLine(Or(a.streetNumber, ""), a.streetName, a.city, Or(a.state, ""), a.postalCode)
  }

  /**
   * The pickup business name: the channel's name in the configured locale
   * whenever that is non-empty, else the placeholder; never empty.
   */
  function PickupBusinessName(config: Config, channel: Channel): (name: string)
    ensures name != ""
    ensures config.defaultLocale in channel.name && channel.name[config.defaultLocale] != "" ==>
      name == channel.name[config.defaultLocale]
    ensures name != DefaultPickupName ==>
      config.defaultLocale in channel.name && name == channel.name[config.defaultLocale]
  {
    if config.defaultLocale in channel.name && channel.name[config.defaultLocale] != ""
    then channel.name[config.defaultLocale]
    else DefaultPickupName
  }

  /**
   * The dropoff business name: the company when it is non-empty, else first
   * and last name; never empty, since the space between the names remains.
   */
  function DropoffBusinessName(a: Address): (name: string)
    ensures name != ""
    ensures Truthy(a.company) ==> name == a.company.value
    ensures !Truthy(a.company) ==> name == a.firstName + " " + a.lastName
  {
    Or(a.company, a.firstName + " " + a.lastName)
  }

  /** The delivery-request body for an order, its shipping address and its pickup channel. */
  function BuildDeliveryRequest(config: Config, order: Order, shipping: Address, channel: Channel): (r: DeliveryRequest)
    // pass-throughs
    ensures r.externalDeliveryId == order.id
    ensures r.orderValue == order.totalCentAmount
    ensures r.pickupReferenceTag == "Order number " + order.orderNumber
    // addresses
    ensures r.dropoffAddress == DropoffAddress(shipping)
    ensures r.pickupAddress == PickupAddress(channel)
    // the fields the provider needs are never empty
    ensures r.pickupBusinessName != "" && r.dropoffBusinessName != ""
    ensures r.pickupPhoneNumber != "" && r.dropoffPhoneNumber != ""
    // fallbacks are taken exactly when the source value is missing or empty
    ensures r.pickupPhoneNumber == (if Truthy(channel.phoneNumber) then channel.phoneNumber.value else PlaceholderPhone)
    ensures r.dropoffPhoneNumber == (if Truthy(shipping.phone) then shipping.phone.value else PlaceholderPhone)
    ensures r.pickupInstructions == (if Truthy(channel.pickupInstructions) then channel.pickupInstructions.value else "")
    ensures r.dropoffInstructions == (if Truthy(order.deliveryInstructions) then order.deliveryInstructions.value else "")
    ensures r.dropoffBusinessName == (if Truthy(shipping.company) then shipping.company.value else shipping.firstName + " " + shipping.lastName)
    ensures r.pickupBusinessName ==
      (if config.defaultLocale in channel.name && channel.name[config.defaultLocale] != ""
       then channel.name[config.defaultLocale] else DefaultPickupName)
  {
    DeliveryRequest(
      externalDeliveryId := order.id,
      pickupAddress := PickupAddress(channel),
      pickupBusinessName := PickupBusinessName(config, channel),
      pickupPhoneNumber := Or(channel.phoneNumber, PlaceholderPhone),
      pickupInstructions := Or(channel.pickupInstructions, ""),
      pickupReferenceTag := "Order number " + order.orderNumber,
      dropoffAddress := DropoffAddress(shipping),
      dropoffBusinessName := DropoffBusinessName(shipping),
      dropoffPhoneNumber := Or(shipping.phone, PlaceholderPhone),
      dropoffInstructions := Or(order.deliveryInstructions, ""),
      orderValue := order.totalCentAmount)
  }

  // ---------------------------------------------------------------------------
  // Dispatch and the handler
  // ---------------------------------------------------------------------------

  /** How an attempt to create a delivery ends. */
  datatype DeliveryOutcome =
    | NoShippingAddress          // returns without dispatching
    | Delivered(data: string)    // the provider accepted the request
    | DeliveryFailed(error: string)  // the provider's failure, re-thrown

  datatype DeliveryRun = DeliveryRun(outcome: DeliveryOutcome, calls: seq<Call>)

  /**
   * Creating a delivery: without a shipping address nothing is sent;
   * otherwise exactly one request, built from the order and the channel and
   * authorised by claims from the one clock reading, goes to the provider,
   * and the provider's answer is the outcome.
   */
  function CreateDoorDashDelivery(env: Env, order: Order, channel: Channel): (r: DeliveryRun)
    ensures order.shippingAddress.None? <==> r.outcome.NoShippingAddress?
    ensures order.shippingAddress.None? ==> r.calls == []
    ensures order.shippingAddress.Some? ==>
      var request := BuildDeliveryRequest(env.config, order, order.shippingAddress.value, channel);
      var claims := DoorDashClaims(env.config, env.nowMillis);
      && r.calls == [PostDelivery(claims, request)]
      && (r.outcome.Delivered? <==> env.dispatch(claims, request).Accepted?)
      && (r.outcome.Delivered? ==> r.outcome.data == env.dispatch(claims, request).data)
      && (r.outcome.DeliveryFailed? ==> r.outcome.error == env.dispatch(claims, request).error)
  {
    var claims := DoorDashClaims(env.config, env.nowMillis);
    match order.shippingAddress
    case None => DeliveryRun(NoShippingAddress, [])
    case Some(shipping) =>
      var request := BuildDeliveryRequest(env.config, order, shipping, channel);
      var calls := [PostDelivery(claims, request)];
      match env.dispatch(claims, request)
      case Accepted(data) => DeliveryRun(Delivered(data), calls)
      case Rejected(error) => DeliveryRun(DeliveryFailed(error), calls)
  }

  /** An error the handler throws to its caller. */
  datatype Fault =
    | CustomError(status: int, message: string)
    | ChannelLookupFailed(error: string)
    | DeliveryRejected(error: string)
    | NullEvent   // the decoded payload is `null`, so reading its `type` throws

  /** How the handler ends: an empty response with a status, or a thrown error. */
  datatype Outcome = Respond(status: int) | Throw(fault: Fault)

  datatype Run = Run(outcome: Outcome, calls: seq<Call>)

  /**
   * The handler's last step once the channel is found: create the delivery
   * and answer 204, or re-throw the provider's failure. At most one request
   * goes out, and it is about this order.
   */
  function DispatchToChannel(env: Env, order: Order, channel: Channel): (r: Run)
    ensures |r.calls| <= 1
    ensures |r.calls| == 1 ==>
      && r.calls[0].PostDelivery?
      && r.calls[0].request.externalDeliveryId == order.id
      && r.calls[0].request.orderValue == order.totalCentAmount
    ensures r.calls == [] <==> order.shippingAddress.None?
    ensures r.outcome == Respond(204) || r.outcome.Throw?
    ensures r.outcome.Throw? <==> |r.calls| == 1 && env.dispatch(r.calls[0].claims, r.calls[0].request).Rejected?
    ensures r.outcome.Throw? ==>
      r.outcome == Throw(DeliveryRejected(env.dispatch(r.calls[0].claims, r.calls[0].request).error))
  {
    var delivery := CreateDoorDashDelivery(env, order, channel);
    var outcome := if delivery.outcome.DeliveryFailed?
      then Throw(DeliveryRejected(delivery.outcome.error))
      else Respond(204);
    Run(outcome, delivery.calls)
  }

  /**
   * The handler's steps once a channel id is chosen: read the channel; a
   * rejected read propagates, a missing channel ends with an empty 200, and
   * a found one is dispatched to.
   */
  function LookupAndDispatch(env: Env, order: Order, channelId: string): (r: Run)
    ensures 1 <= |r.calls| <= 2 && r.calls[0] == LookupChannel(channelId)
    ensures |r.calls| == 2 ==>
      && r.calls[1].PostDelivery?
      && r.calls[1].request.externalDeliveryId == order.id
      && r.calls[1].request.orderValue == order.totalCentAmount
      && env.lookup(channelId).Found?
    ensures env.lookup(channelId).LookupError? ==> r.outcome == Throw(ChannelLookupFailed(env.lookup(channelId).error))
    ensures env.lookup(channelId).NotFound? ==> r.outcome == Respond(200)
    ensures r.outcome.Respond? ==> r.outcome.status == 200 || r.outcome.status == 204
    ensures r.outcome == Respond(204) <==>
      env.lookup(channelId).Found? && !(|r.calls| == 2 && env.dispatch(r.calls[1].claims, r.calls[1].request).Rejected?)
  {
    var lookup := [LookupChannel(channelId)];
    match env.lookup(channelId)
    case LookupError(error) => Run(Throw(ChannelLookupFailed(error)), lookup)
    case NotFound => Run(Respond(200), lookup)
    case Found(channel) =>
      var dispatched := DispatchToChannel(env, order, channel);
      Run(dispatched.outcome, lookup + dispatched.calls)
  }

  /** The order passes the filter and one of its line items names a channel. */
  predicate WantsLookup(config: Config, event: EventData)
  {
    event.order.Some? && ShippingMethodEligible(config, event.order.value) &&
    FirstChannelId(event.order.value.lineItems).Some?
  }

  /**
   * The order-created handler. Without an order it throws a 400 error; an
   * ineligible shipping method, no channel-priced line item or an unknown
   * channel end with an empty 200; otherwise it creates the delivery and
   * answers 204, re-throwing a provider failure.
   */
  function HandleOrderCreated(env: Env, event: EventData): (r: Run)
    ensures event.order.None? ==> r == Run(Throw(CustomError(400, MissingOrderMessage)), [])
    // a channel is looked up exactly when the filter passes, and it is the first channel
    ensures r.calls != [] <==> WantsLookup(env.config, event)
    ensures r.calls != [] ==> r.calls[0] == LookupChannel(FirstChannelId(event.order.value.lineItems).value)
    // at most one request reaches the provider, and it is about this order
    ensures |r.calls| <= 2
    ensures |r.calls| == 2 ==>
      && r.calls[1].PostDelivery?
      && r.calls[1].request.externalDeliveryId == event.order.value.id
      && r.calls[1].request.orderValue == event.order.value.totalCentAmount
      && env.lookup(r.calls[0].channelId).Found?
    // a rejected channel read propagates as a thrown error
    ensures WantsLookup(env.config, event) && env.lookup(r.calls[0].channelId).LookupError? ==>
      r.outcome == Throw(ChannelLookupFailed(env.lookup(r.calls[0].channelId).error))
    ensures r.outcome.Respond? ==> r.outcome.status == 200 || r.outcome.status == 204
    ensures r.outcome == Respond(204) <==>
      (&& WantsLookup(env.config, event)
       && env.lookup(r.calls[0].channelId).Found?
       && !(|r.calls| == 2 && env.dispatch(r.calls[1].claims, r.calls[1].request).Rejected?))
  {
    match event.order
    case None => Run(Throw(CustomError(400, MissingOrderMessage)), [])
    case Some(order) =>
      if !ShippingMethodEligible(env.config, order) then Run(Respond(200), [])
      else
        match FirstChannelId(order.lineItems)
        case None => Run(Respond(200), [])
        case Some(channelId) => LookupAndDispatch(env, order, channelId)
  }

  // ---------------------------------------------------------------------------
  // Properties of the eligibility filter
  // ---------------------------------------------------------------------------

  /**
   * An id is in the allow-list exactly when some comma-separated piece of
   * the configured text trims to it.
   */
  lemma AllowListMembership(config: Config, id: string)
    ensures var parts := Split(Or(config.shippingMethodIds, ""), ',');
      id in AllowedShippingMethods(config) <==> exists i :: 0 <= i < |parts| && Trim(parts[i]) == id
  {
    var parts := Split(Or(config.shippingMethodIds, ""), ',');
    var ids := AllowedShippingMethods(config);
    AllowListEntries(config);
    if id in ids {
      var i :| 0 <= i < |ids| && ids[i] == id;
      assert Trim(parts[i]) == id;
    }
    if exists i :: 0 <= i < |parts| && Trim(parts[i]) == id {
      var i :| 0 <= i < |parts| && Trim(parts[i]) == id;
      assert ids[i] == id;
      assert id in ids;
    }
  }

  /** The allow-list is the configured pieces trimmed, one by one. */
  lemma AllowListEntries(config: Config)
    ensures var parts := Split(Or(config.shippingMethodIds, ""), ',');
      && |AllowedShippingMethods(config)| == |parts|
      && forall i :: 0 <= i < |parts| ==> AllowedShippingMethods(config)[i] == Trim(parts[i])
  {
  }

  /**
   * With the list unset (or empty) the allow-list is `[""]`, so no order is
   * ever eligible.
   */
  lemma UnsetAllowListAdmitsNothing(config: Config, order: Order)
    requires !Truthy(config.shippingMethodIds)
    ensures AllowedShippingMethods(config) == [""]
    ensures !ShippingMethodEligible(config, order)
  {
    assert Trim("") == "";
  }

  /**
   * A configured list written as comma-joined pieces yields those pieces,
   * in order, each trimmed: `" sm-1 , sm-2"` gives `["sm-1", "sm-2"]`.
   */
  lemma AllowListOfPieces(config: Config, pieces: seq<string>)
    requires |pieces| >= 1 && forall i :: 0 <= i < |pieces| ==> ',' !in pieces[i]
    requires Or(config.shippingMethodIds, "") == Join(pieces, ',')
    ensures |AllowedShippingMethods(config)| == |pieces|
    ensures forall i :: 0 <= i < |pieces| ==> AllowedShippingMethods(config)[i] == Trim(pieces[i])
  {
    SplitJoin(pieces, ',');
  }

  /**
   * An order whose shipping method is missing, empty or not allow-listed
   * gets an empty 200 and causes no lookup and no dispatch.
   */
  lemma IneligibleShippingMethodIgnored(env: Env, order: Order, eventType: Option<string>)
    requires !ShippingMethodEligible(env.config, order)
    ensures HandleOrderCreated(env, EventData(eventType, Some(order))) == Run(Respond(200), [])
  {
  }

  /**
   * An eligible order none of whose line items carries a channel gets an
   * empty 200 and causes no lookup.
   */
  lemma NoChannelItemIgnored(env: Env, order: Order, eventType: Option<string>)
    requires ShippingMethodEligible(env.config, order)
    requires forall k :: 0 <= k < |order.lineItems| ==> ChannelIdOf(order.lineItems[k]).None?
    ensures HandleOrderCreated(env, EventData(eventType, Some(order))) == Run(Respond(200), [])
  {
  }

  /**
   * When the first channel of an eligible order is not found, the answer is
   * an empty 200 after that one lookup, and nothing is dispatched.
   */
  lemma ChannelNotFoundIgnored(env: Env, order: Order, eventType: Option<string>)
    requires ShippingMethodEligible(env.config, order)
    requires FirstChannelId(order.lineItems).Some?
    requires env.lookup(FirstChannelId(order.lineItems).value).NotFound?
    ensures HandleOrderCreated(env, EventData(eventType, Some(order))) ==
      Run(Respond(200), [LookupChannel(FirstChannelId(order.lineItems).value)])
  {
  }

  /**
   * An order without a shipping address whose channel is found still gets a
   * 204, although nothing was dispatched.
   */
  lemma MissingShippingAddressStillAccepted(env: Env, order: Order, eventType: Option<string>)
    requires ShippingMethodEligible(env.config, order)
    requires FirstChannelId(order.lineItems).Some?
    requires env.lookup(FirstChannelId(order.lineItems).value).Found?
    requires order.shippingAddress.None?
    ensures HandleOrderCreated(env, EventData(eventType, Some(order))) ==
      Run(Respond(204), [LookupChannel(FirstChannelId(order.lineItems).value)])
  {
  }

  /**
   * A rejected channel read is not caught by the handler: it propagates as a
   * thrown error after that one lookup, and nothing is dispatched.
   */
  lemma ChannelLookupFailureRethrown(env: Env, order: Order, eventType: Option<string>)
    requires ShippingMethodEligible(env.config, order)
    requires FirstChannelId(order.lineItems).Some?
    requires env.lookup(FirstChannelId(order.lineItems).value).LookupError?
    ensures HandleOrderCreated(env, EventData(eventType, Some(order))) ==
      Run(Throw(ChannelLookupFailed(env.lookup(FirstChannelId(order.lineItems).value).error)),
          [LookupChannel(FirstChannelId(order.lineItems).value)])
  {
  }

  /**
   * A delivery the provider rejects is re-thrown by the handler, after the
   * lookup and the one dispatch attempt.
   */
  lemma DispatchFailureRethrown(env: Env, order: Order, eventType: Option<string>)
    requires ShippingMethodEligible(env.config, order)
    requires FirstChannelId(order.lineItems).Some?
    requires env.lookup(FirstChannelId(order.lineItems).value).Found?
    requires order.shippingAddress.Some?
    ensures var channel := env.lookup(FirstChannelId(order.lineItems).value).channel;
      var claims := DoorDashClaims(env.config, env.nowMillis);
      var request := BuildDeliveryRequest(env.config, order, order.shippingAddress.value, channel);
      env.dispatch(claims, request).Rejected? ==>
        HandleOrderCreated(env, EventData(eventType, Some(order))) ==
        Run(Throw(DeliveryRejected(env.dispatch(claims, request).error)),
            [LookupChannel(FirstChannelId(order.lineItems).value), PostDelivery(claims, request)])
  {
    FoundChannelReachesDispatch(env, order, eventType);
    DispatchSendsBuiltRequest(env, order, env.lookup(FirstChannelId(order.lineItems).value).channel);
  }

  /**
   * The dispatch path: an eligible order whose first channel is found and
   * which has a shipping address is looked up once and dispatched once,
   * with the request built from that order and channel; an accepted
   * delivery gives 204.
   */
  lemma FoundChannelDispatched(env: Env, order: Order, eventType: Option<string>)
    requires ShippingMethodEligible(env.config, order)
    requires FirstChannelId(order.lineItems).Some?
    requires env.lookup(FirstChannelId(order.lineItems).value).Found?
    requires order.shippingAddress.Some?
    ensures var channel := env.lookup(FirstChannelId(order.lineItems).value).channel;
      var claims := DoorDashClaims(env.config, env.nowMillis);
      var request := BuildDeliveryRequest(env.config, order, order.shippingAddress.value, channel);
      && HandleOrderCreated(env, EventData(eventType, Some(order))).calls ==
         [LookupChannel(FirstChannelId(order.lineItems).value), PostDelivery(claims, request)]
      && (env.dispatch(claims, request).Accepted? ==>
            HandleOrderCreated(env, EventData(eventType, Some(order))).outcome == Respond(204))
  {
    var id := FirstChannelId(order.lineItems).value;
    var channel := env.lookup(id).channel;
    var claims := DoorDashClaims(env.config, env.nowMillis);
    var request := BuildDeliveryRequest(env.config, order, order.shippingAddress.value, channel);
    FoundChannelReachesDispatch(env, order, eventType);
    DispatchSendsBuiltRequest(env, order, channel);
    assert [LookupChannel(id)] + [PostDelivery(claims, request)] == [LookupChannel(id), PostDelivery(claims, request)];
  }

  /** Once the first channel is found, the handler's run is the lookup followed by the dispatch step. */
  lemma FoundChannelReachesDispatch(env: Env, order: Order, eventType: Option<string>)
    requires ShippingMethodEligible(env.config, order)
    requires FirstChannelId(order.lineItems).Some?
    requires env.lookup(FirstChannelId(order.lineItems).value).Found?
    ensures var id := FirstChannelId(order.lineItems).value;
      var dispatched := DispatchToChannel(env, order, env.lookup(id).channel);
      HandleOrderCreated(env, EventData(eventType, Some(order))) ==
      Run(dispatched.outcome, [LookupChannel(id)] + dispatched.calls)
  {
  }

  /**
   * With a shipping address, the dispatch step sends the request built from
   * the order and channel under the one reading's claims, and its outcome is
   * the provider's answer.
   */
  lemma DispatchSendsBuiltRequest(env: Env, order: Order, channel: Channel)
    requires order.shippingAddress.Some?
    ensures var claims := DoorDashClaims(env.config, env.nowMillis);
      var request := BuildDeliveryRequest(env.config, order, order.shippingAddress.value, channel);
      DispatchToChannel(env, order, channel) ==
      Run(if env.dispatch(claims, request).Rejected?
          then Throw(DeliveryRejected(env.dispatch(claims, request).error))
          else Respond(204),
          [PostDelivery(claims, request)])
  {
  }

  /** An allow-list of one trimmed, comma-free id admits exactly that id. */
  lemma SingleEntryAllowList(config: Config, methodId: string)
    requires methodId != "" && ',' !in methodId
    requires !IsWhitespace(methodId[0]) && !IsWhitespace(methodId[|methodId| - 1])
    requires config.shippingMethodIds == Some(methodId)
    ensures AllowedShippingMethods(config) == [methodId]
  {
    AllowListOfPieces(config, [methodId]);
    assert Trim(methodId) == methodId by {
      TrimPadded([], methodId, []);
      assert [] + methodId + [] == methodId;
    }
  }

  /**
   * The end-to-end case: the allow-list is a single shipping-method id, the
   * order uses it, and its only line item is priced under a channel that
   * resolves. Exactly one delivery request is sent, its external id is the
   * order id, and the handler answers 204 when the provider accepts it.
   */
  lemma EligibleOrderDispatchedOnce(env: Env, order: Order, eventType: Option<string>, methodId: string, channelId: string)
    requires methodId != "" && ',' !in methodId
    requires !IsWhitespace(methodId[0]) && !IsWhitespace(methodId[|methodId| - 1])
    requires env.config.shippingMethodIds == Some(methodId) && order.shippingMethodId == Some(methodId)
    requires channelId != "" && order.lineItems == [LineItem(Some(Price(Some(ChannelReference(channelId)))))]
    requires env.lookup(channelId).Found?
    requires order.shippingAddress.Some?
    requires env.dispatch(DoorDashClaims(env.config, env.nowMillis),
      BuildDeliveryRequest(env.config, order, order.shippingAddress.value, env.lookup(channelId).channel)).Accepted?
    ensures var r := HandleOrderCreated(env, EventData(eventType, Some(order)));
      && r.outcome == Respond(204)
      && |r.calls| == 2 && r.calls[0] == LookupChannel(channelId)
      && r.calls[1].PostDelivery? && r.calls[1].request.externalDeliveryId == order.id
  {
    SingleEntryAllowList(env.config, methodId);
    assert ShippingMethodEligible(env.config, order);
    assert ChannelIdOf(order.lineItems[0]) == Some(channelId);
    assert FirstChannelId(order.lineItems) == Some(channelId);
    FoundChannelDispatched(env, order, eventType);
  }

  // ---------------------------------------------------------------------------
  // Properties of the request builder
  // ---------------------------------------------------------------------------

  /** The dropoff line for a complete US address. */
  lemma DropoffAddressExample(a: Address)
    requires a.streetName == "Main St" && a.streetNumber == Some("5") && a.city == "Springfield"
    requires a.state == Some("IL") && a.postalCode == "62704"
    ensures DropoffAddress(a) == "Main St 5 Springfield, IL 62704"
  {
  }

  /**
   * A missing street number or state leaves an empty segment with both of
   * its separators in place, exactly as an empty one does.
   */
  lemma MissingAddressPartsLeaveEmptySegments(a: Address)
    requires !Truthy(a.streetNumber) && !Truthy(a.state)
    ensures DropoffAddress(a) == a.streetName + "  " + a.city + ",  " + a.postalCode
    ensures |DropoffAddress(a)| == |a.streetName| + |a.city| + |a.postalCode| + 5
  {
  }

  /**
   * The pickup line is the dropoff template with street number and street
   * name exchanged: it puts the number first.
   */
  lemma PickupAddressPutsNumberFirst(channel: Channel)
    requires channel.address.Some?
    ensures var a := channel.address.value;
      PickupAddress(channel) ==
      DropoffAddress(a.(streetName := Or(a.streetNumber, ""), streetNumber := Some(a.streetName)))
  {
  }

  /** A channel without an address gives an empty pickup line. */
  lemma PickupAddressEmptyWithoutAddress(channel: Channel)
    requires channel.address.None?
    ensures PickupAddress(channel) == ""
  {
  }
}

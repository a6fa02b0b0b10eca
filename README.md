# Delivery-dispatch webhook, modelled in Dafny

This project models the decision pipeline of a webhook bridge between a
commerce platform and an on-demand delivery provider. A push message arrives
at the event endpoint. The endpoint checks the envelope, decodes and parses
the payload, and routes on the event `type`. For `OrderCreated` the order
handler does four things:

- it filters the order by shipping method and by the first channel-priced
  line item;
- it looks up that channel;
- it builds the provider's delivery-creation body;
- it sends that body, authorised by a short-lived token.

Modules, one per concern:

- `Wrappers`: `Option`, which stands for a missing JavaScript property.
- `Text`: the JavaScript string operations the controllers use. These are
  `trim` (with the ECMAScript whitespace set), `split` on one character, and
  `||` on a possibly missing string. It also holds their lemmas: split/join
  round trips in both directions, and trim facts.
- `OrderController`: the handler's records, the allow-list, the first-channel
  scan, the request builder, the token claims, the delivery attempt and the
  handler. The scan is also a `method` with a loop, as in the source.
- `EventController`: the endpoint (`Post`), its parse-and-route step
  (`Route`), and the properties of both.

Collaborators are passed in as values:

- `Env` holds the configuration record, the channel read (`Found`,
  `NotFound` or `LookupError`), the provider endpoint (`Accepted` or
  `Rejected`) and one clock reading in milliseconds.
- `Codec` holds the base64 decoder, the JSON parser (which may fail) and the
  rendering of a thrown error inside a template string.

Every outside call is recorded in a call log (`LookupChannel`,
`PostDelivery`). That is how "no lookup happens" and "no dispatch happens"
are stated. The endpoint's answer is one of three things: an empty response
with a status, a 400 error with its message, or a parse error that escapes
unwrapped.

In these places the model follows the code's actual behaviour:

- A JSON parse failure is raised before the error-catching region. It
  escapes as it is (`Reply.ParseFailure`) and is not turned into a 400.
- A payload that parses to `null` makes reading its `type` throw inside that
  region. It comes back as a 400 (`Fault.NullEvent`).
- A rejected channel read is not caught by the order handler, which throws
  it on. The endpoint catches it in that same region, so it also becomes a 400.
- An order without a shipping address gets a 204, although nothing was sent.

## Model

| member | source | states |
|---|---|---|
| `OrderController.DoorDashClaims` | event/src/controllers/order.controller.ts:13-20 | audience `doordash`, issuer and key id from the configuration; `iat` is the clock reading rounded down to whole seconds; `exp` is exactly `iat + 300` for that one reading |
| `OrderController.AllowListEntriesTrimmed` | event/src/controllers/order.controller.ts:106-108 | the allow-list has one entry per comma-separated piece, and no entry holds a comma or starts or ends with whitespace |
| `OrderController.AllowListMembership` | event/src/controllers/order.controller.ts:106-113 | an id is allow-listed iff some comma-separated piece of the configuration trims to it |
| `OrderController.AllowListOfPieces` | event/src/controllers/order.controller.ts:106-108 | a configuration written as comma-joined pieces yields exactly those pieces in order, each trimmed |
| `OrderController.AllowedShippingMethods` | event/src/controllers/order.controller.ts:106-108 | the allow-list has exactly as many entries as the configuration has comma-separated pieces, and at least one |
| `OrderController.EligibleIdIsTrimmed` | event/src/controllers/order.controller.ts:106-113 | an order that passes the shipping-method filter (`ShippingMethodEligible`) names a non-empty id, and trimming leaves that id unchanged, so an id padded with whitespace never passes |
| `OrderController.UnsetAllowListAdmitsNothing` | event/src/controllers/order.controller.ts:106-120 | with the list unset or empty, the allow-list is `[""]` and no order is eligible |
| `OrderController.IneligibleShippingMethodIgnored` | event/src/controllers/order.controller.ts:109-120 | a missing, empty or non-listed shipping-method id gives an empty 200, with no lookup and no dispatch |
| `OrderController.ChannelIdOf` | event/src/controllers/order.controller.ts:127-128 | the contract states that a yielded id is never empty; the body is the reference definition of the source's truthiness test on `price?.channel?.id` |
| `OrderController.FirstChannelId` | event/src/controllers/order.controller.ts:122-131 | the result is absent iff no line item has a channel; otherwise it is the channel of some item such that every earlier item has none |
| `OrderController.FindChannelId` | event/src/controllers/order.controller.ts:123-131 | the loop that stops at the first item with a channel returns exactly `FirstChannelId` of the items |
| `OrderController.FirstChannelIgnoresLaterItems` | event/src/controllers/order.controller.ts:126-131 | once a prefix of the line items has a channel, appending items never changes the chosen channel |
| `OrderController.ChannelFreePrefixSkipped` | event/src/controllers/order.controller.ts:126-131 | leading items without a channel are skipped: the choice is that of the remaining items |
| `OrderController.NoChannelItemIgnored` | event/src/controllers/order.controller.ts:133-137 | an eligible order with no channel-priced line item gives an empty 200 with no lookup |
| `OrderController.ChannelNotFoundIgnored` | event/src/controllers/order.controller.ts:139-153 | when the first channel is not found, the answer is an empty 200 after that one lookup, with no dispatch |
| `OrderController.DropoffAddress` | event/src/controllers/order.controller.ts:48 | the dropoff line begins with the street name, ends with the postal code, and is as long as its parts plus the five separator characters |
| `OrderController.PickupAddress` | event/src/controllers/order.controller.ts:53-55 | the pickup line is empty exactly when the channel has no address, and otherwise ends with the postal code |
| `OrderController.PickupBusinessName` | event/src/controllers/order.controller.ts:56 | never empty; the channel's name in the configured locale whenever that name is non-empty, and the placeholder otherwise |
| `OrderController.DropoffBusinessName` | event/src/controllers/order.controller.ts:62-64 | never empty; the company when it is non-empty, else first name, a space and last name |
| `OrderController.BuildDeliveryRequest` | event/src/controllers/order.controller.ts:51-68 | external id, order value and reference tag pass through; both addresses follow their templates; each `||` fallback is taken exactly when its source is missing or empty; business names and phone numbers are never empty |
| `OrderController.DropoffAddressExample` | event/src/controllers/order.controller.ts:48 | `Main St`, `5`, `Springfield`, `IL`, `62704` give `Main St 5 Springfield, IL 62704` |
| `OrderController.MissingAddressPartsLeaveEmptySegments` | event/src/controllers/order.controller.ts:48 | a missing street number and state leave empty segments with all separators kept (length is the parts plus 5) |
| `OrderController.PickupAddressPutsNumberFirst` | event/src/controllers/order.controller.ts:53-54 | the pickup line is the dropoff template with street number and street name exchanged |
| `OrderController.PickupAddressEmptyWithoutAddress` | event/src/controllers/order.controller.ts:53-55 | a channel without an address gives an empty pickup address |
| `OrderController.CreateDoorDashDelivery` | event/src/controllers/order.controller.ts:37-90 | without a shipping address nothing is sent; otherwise exactly one request goes out, built from the order and channel with claims from the one clock reading, and it succeeds iff the provider accepts it |
| `OrderController.DispatchFailureRethrown` | event/src/controllers/order.controller.ts:86-89 | a rejected delivery is re-thrown by the handler after the lookup and the one dispatch attempt |
| `OrderController.MissingShippingAddressStillAccepted` | event/src/controllers/order.controller.ts:155-159 | with a found channel but no shipping address, the handler answers 204 though nothing was dispatched |
| `OrderController.DispatchToChannel` | event/src/controllers/order.controller.ts:155-159 | at most one request goes out, about this order; none iff there is no shipping address; the answer is 204 unless the provider rejects the request, and a rejection is thrown on with the provider's error |
| `OrderController.LookupAndDispatch` | event/src/controllers/order.controller.ts:139-159 | the channel is read first; a rejected read is thrown on, a missing channel gives 200, and a found one leads to at most one dispatch about this order; 204 iff the channel is found and the provider does not reject |
| `OrderController.HandleOrderCreated` | event/src/controllers/order.controller.ts:97-160 | no order gives the 400 `Bad request: No order data in the message` with no calls; a lookup happens iff the filters pass, and it is for the first channel; a rejected channel read is thrown on; at most one dispatch, for this order's id and amount, and only after a found channel; the status is 200 or 204, and 204 iff the channel was found and the provider did not reject |
| `OrderController.ChannelLookupFailureRethrown` | event/src/controllers/order.controller.ts:139-145 | a rejected channel read is thrown on after that one lookup, with nothing dispatched |
| `OrderController.FoundChannelReachesDispatch` | event/src/controllers/order.controller.ts:147-159 | once the first channel is found, the handler's run is that one lookup followed by the dispatch step |
| `OrderController.DispatchSendsBuiltRequest` | event/src/controllers/order.controller.ts:37-89 | with a shipping address, exactly the request built from the order and channel goes out under the one reading's claims, and the outcome is 204 or the provider's rejection |
| `OrderController.FoundChannelDispatched` | event/src/controllers/order.controller.ts:147-159 | an eligible order whose first channel is found and which has a shipping address makes exactly one lookup and one dispatch, of the request built from that order and channel; an accepted delivery gives 204 |
| `OrderController.EligibleOrderDispatchedOnce` | event/src/controllers/order.controller.ts:155-159 | an allow-listed order whose one line item has a resolving channel is dispatched exactly once with its own id, and the handler answers 204 when the provider accepts that request |
| `Text.Trim` | event/src/controllers/event.controller.ts:32 | the result is no longer than the input and neither starts nor ends with whitespace |
| `Text.TrimEmptyIffBlank` | event/src/controllers/event.controller.ts:32-35 | trimming gives the empty string iff the input is all whitespace |
| `Text.TrimPadded` | event/src/controllers/order.controller.ts:108 | trimming removes exactly the whitespace around a string that has none at its ends |
| `Text.TrimIdempotent` | event/src/controllers/order.controller.ts:108 | trimming twice is trimming once |
| `Text.OrValueOrFallback` | event/src/controllers/order.controller.ts:56-66 | JavaScript's or-fallback on a string (`Or`) gives the value when it is present and non-empty, otherwise the fallback; it is empty only when both are |
| `Text.Split` | event/src/controllers/order.controller.ts:107 | at least one piece, no piece holds the separator, and joining the pieces gives back the input |
| `Text.SplitJoin` | event/src/controllers/order.controller.ts:107 | splitting a join of separator-free pieces gives back the pieces |
| `EventController.DecodedData` | event/src/controllers/event.controller.ts:31-33 | there is text iff `data` is present and non-empty; the text is empty iff the decoded payload is all whitespace, and otherwise neither starts nor ends with whitespace |
| `EventController.Rewrapped` | event/src/controllers/event.controller.ts:56 | a 400 whose message is the prefix `Bad request: ` followed by exactly the error's text |
| `EventController.Post` | event/src/controllers/event.controller.ts:14-58 | a missing body gives the 400 `Bad request: No Pub/Sub message was received` whatever else holds; outside calls only happen for a decoded, parsed `OrderCreated` event; at most two calls; statuses are 200 or 204; a parse failure makes no call |
| `EventController.MissingMessageRejectedBeforeDecoding` | event/src/controllers/event.controller.ts:22-25 | a body without `message` gives the 400 message-format error, and the answer does not depend on the decoder, parser or collaborators |
| `EventController.BlankDataRejected` | event/src/controllers/event.controller.ts:31-37 | missing or empty `data`, or data that decodes to blank text, gives the 400 `Bad request: No data in the Pub/Sub message`; otherwise the trimmed text is parsed and routed |
| `EventController.Route` | event/src/controllers/event.controller.ts:39-57 | only an `OrderCreated` event makes outside calls; a parse failure is the only way to get an unwrapped error, and it makes no call |
| `EventController.ParseFailureEscapesUnwrapped` | event/src/controllers/event.controller.ts:39-43 | a parse failure escapes with the parser's own message, no routing and no call |
| `EventController.UnrecognisedTypeAcknowledged` | event/src/controllers/event.controller.ts:50-52 | any other type, or none, gives an empty 204, does not run the handler and makes no call |
| `EventController.RecognisedTypeDelegates` | event/src/controllers/event.controller.ts:44-47 | `OrderCreated` runs the handler once: the endpoint makes exactly its calls and answers with its status |
| `EventController.HandlerErrorsRewrapped` | event/src/controllers/event.controller.ts:54-57 | errors thrown in the routing region become a 400 `Bad request: ` plus the error's text: a `null` payload, the handler's missing-order error, and every other error the handler throws (a rejected channel read, a rejected delivery); conversely every 400 from routing is such a re-wrapped error |

## Left out

- The HTTP POST to the provider and the provider's reply are network I/O. They are the `dispatch` parameter, which yields accepted (with the reply body) or rejected.
- Token signing is left out: HMAC-SHA256 as in section 3.2 of RFC 7518, base64 decoding of the signing key, and JWT serialisation. These are library calls. Only the claim record is modelled. A signing failure (for example an unset key) is not modelled.
- The clock is one reading in milliseconds (`nowMillis`). The source reads the clock twice (lines 18-19). The model does not cover the case where those two readings fall in different seconds. Floating-point rounding of the division is also not modelled.
- The commerce-platform channel read is the `lookup` parameter. Its client, request building and response shape are not part of this model.
- Base64 decoding (section 4 of RFC 4648) and JSON parsing are the `decodeBase64` and `parseJson` parameters. The decoder is total, as Node's is for a string. The parser either fails, yields `null`, or yields an event with an optional `type` and an optional order. A non-string `type` is represented as a missing one: neither equals `OrderCreated`.
- How a thrown error renders inside a template string is the `describe` parameter. The error class's text format is not part of this model.
- The Express request and response, the logger, and the reading of environment variables are replaced by the `Reply`/`Outcome` values and the `Config` record.
- There is no state shared across requests, so concurrency in the hosting runtime is not modelled.
- Required fields rendered in templates are plain strings: `streetName`, `city`, `postalCode`, `firstName`, `lastName`, `orderNumber`. JavaScript would print `undefined` for a missing one, and the model does not reproduce that. Likewise, `DEFAULT_LOCALE` is a plain string key.
- `order.lineItems || []` is a sequence in the model; a missing list is the empty sequence.

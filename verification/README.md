# linkedingo client core in Dafny

A model of two small pieces of the `linkedingo` Go package, the client
connector for a social network's private API:

- **The push-registration payload** (`createPushRegistrationPayload` in
  `pkg/linkedingo/push.go`). It builds a fixed, hand-rolled, length-prefixed
  key/value byte layout around a device push token: a format marker and key
  count, the key `pushNotificationTokens` with a one-element array holding
  the token, and the key `pushNotificationEnabled` with a boolean-true
  byte. The model gives the byte-exact layout and the length `57 + |token|`.
  It adds a decoder that reads the layout back by its markers, counts and
  lengths; the decoder is not in the source. With it the model proves the
  round trip and its converse: decoding yields `token` exactly when the bytes
  are the payload of `token` and `|token| <= 255`. The encoder is injective
  on tokens of every length.
- **Client identity and callback dispatch** (`pkg/linkedingo/client.go`).
  `NewClient` stores the user URN, the cookie jar and the handler table as
  given. It replaces the caller's page instance and tracking header with
  built-in ones. The model proves that both of those arguments have no
  effect. It also proves that the stored tracking header, read as a JSON
  object whose keys and values contain no `"`, has exactly four members, and
  that its `clientVersion` and `mpVersion` are `ServiceVersion`. `Handlers` is a
  record of six optional callback slots. Each `on*` dispatcher returns the
  list of callback invocations it performs. That is exactly one call of the
  event's own slot, with the same context and payload, or nothing when the
  slot is nil. Changing any other slot never changes the result.

Files: `wrappers.dfy` (`Option`, `Result`), `bytes.dfy` (Go's `byte`, the
truncating `byte(n)` conversion, ASCII strings as bytes), `client.dfy`
(module `Client`), `push.dfy` (module `Push`).

Modelling choices:

- A Go `string` token is its bytes, `seq<uint8>`. `byte(len(token))` is
  `LengthByte(|token|)`, which is `|token| % 256`.
- `createPushRegistrationPayload` is a method on `*Client`. The model keeps
  the receiver as a parameter that the body never reads.
- Callbacks, contexts, pointers, errors, URNs and UUIDs are opaque values. An
  invocation records which callback was called, with which context and
  which event payload.
- `uuid.New()` is not modelled. `NewClient` takes the realtime session id
  and the client id as parameters.

Two facts about the code worth knowing:

- Tokens longer than 255 bytes: the code writes only the low eight bits of
  the length (`byte(len(token))`, push.go:61). The model does the same, and
  `Push.LongTokenIsNotDecodable` shows such a payload cannot be read back.
- A key name can occur more than once in a payload, when the token spells it
  (`Push.KeyNameMayRecurInToken`). The model states where each key sits.

## Model

| member | source | states |
|---|---|---|
| Bytes.LengthByte | pkg/linkedingo/push.go:61 | `byte(n)` keeps `n % 256`, and it equals `n` exactly when `n < 256` |
| Bytes.AsciiBytes | pkg/linkedingo/push.go:56 | `append(payload, key...)` (here and at push.go:69) for an ASCII key adds one byte per character, holding that character's code |
| Push.CreatePushRegistrationPayload | pkg/linkedingo/push.go:41-73 | output is `57 + \|token\|` bytes: `00 02 14 16`, the 22 key bytes, `01 01 14 (\|token\| % 256) 01`, the token verbatim at 31, then `14 17`, the 23 key bytes and a last byte `08` |
| Push.PayloadIgnoresReceiver | pkg/linkedingo/push.go:41 | the payload depends only on the token, never on the client it is called on |
| Push.DecodeCreatedPayload | pkg/linkedingo/push.go:50-70 | round trip: for `\|token\| <= 255`, decoding the payload by its markers, counts and lengths returns the token |
| Push.DecodedPayloadIsCreated | pkg/linkedingo/push.go:50-70 | any bytes that decode to a token are exactly that token's payload, and the token has at most 255 bytes |
| Push.DecodeSucceedsExactlyOnPayloads | pkg/linkedingo/push.go:41-73 | decoding yields `token` if and only if `\|token\| <= 255` and the bytes are the payload of `token` |
| Push.LongTokenIsNotDecodable | pkg/linkedingo/push.go:61 | for tokens of 256 bytes or more the length byte wraps, and decoding the payload fails |
| Push.CreateIsInjective | pkg/linkedingo/push.go:41-73 | equal payloads come from equal tokens, for tokens of any length |
| Push.KeyBytes | pkg/linkedingo/push.go:46-47 | the two key names are the ASCII bytes of `pushNotificationTokens` and `pushNotificationEnabled` |
| Push.AbcPayload | pkg/linkedingo/push.go:50-70 | the token "abc" gives the bytes `00 02 14 16 <key> 01 01 14 03 01 61 62 63 14 17 <key> 08` |
| Push.KeyNameMayRecurInToken | pkg/linkedingo/push.go:56-64 | a token that spells a key name makes that name appear twice in the output |
| Client.XLiTrackIsJsonObject | pkg/linkedingo/client.go:55 | the tracking-header literal is the rendering of a four-member JSON object: `clientVersion`, `mpVersion`, `osName`, `mpName` |
| Client.XLiTrackVersionMembers | pkg/linkedingo/client.go:55 | every quote-free member list that renders to the tracking header is exactly `clientVersion`, `mpVersion`, `osName`, `mpName`, and its `clientVersion` and `mpVersion` both hold `ServiceVersion` |
| Client.UserAgentNamesServiceVersion | pkg/linkedingo/client.go:27-28 | `UserAgent` starts with `LinkedIn/` immediately followed by `ServiceVersion` |
| Client.NewClient | pkg/linkedingo/client.go:49-66 | stored page instance is `PageInstance`; stored tracking header is the JSON object above; stored service version is `ServiceVersion`; URN, jar, handlers and both UUIDs are stored unchanged |
| Client.NewClientIgnoresOverrides | pkg/linkedingo/client.go:55-56 | the page-instance and tracking-header arguments of `NewClient` have no effect on the client |
| Client.ClientVersionMatchesUserAgent | pkg/linkedingo/client.go:27-57 | every client's stored service version is the one the user agent names after `LinkedIn/` |
| Client.Dispatch | pkg/linkedingo/client.go:91-125 | reference dispatcher: calls the event's own slot once with the same context and payload, or makes no call when that slot is nil |
| Client.OnHeartbeat | pkg/linkedingo/client.go:91-95 | one call of the `Heartbeat` slot with `ctx` when it is set, no call when it is nil |
| Client.OnClientConnection | pkg/linkedingo/client.go:97-101 | one call of the `ClientConnection` slot with `ctx` and `conn` when it is set, no call when it is nil |
| Client.OnTransientDisconnect | pkg/linkedingo/client.go:103-107 | one call of the `TransientDisconnect` slot with `ctx` and `err` when it is set, no call when it is nil |
| Client.OnBadCredentials | pkg/linkedingo/client.go:109-113 | one call of the `BadCredentials` slot with `ctx` and `err` when it is set, no call when it is nil |
| Client.OnUnknownError | pkg/linkedingo/client.go:115-119 | one call of the `UnknownError` slot with `ctx` and `err` when it is set, no call when it is nil |
| Client.OnDecoratedEvent | pkg/linkedingo/client.go:121-125 | one call of the `DecoratedEvent` slot with `ctx` and the event when it is set, no call when it is nil |
| Client.OnDispatchersAgreeWithDispatch | pkg/linkedingo/client.go:91-125 | each of the six `on*` dispatchers behaves exactly like the reference dispatcher for its event kind |
| Client.DispatchReadsOnlyOwnSlot | pkg/linkedingo/client.go:91-125 | replacing any slot other than the event's own leaves the calls made unchanged |
| Client.DispatchNilIsNoOp | pkg/linkedingo/client.go:91-125 | dispatch makes no call if and only if the event's slot is nil; otherwise it makes exactly one call, to that slot's callback |

## Left out

- `RegisterAndroidPush` (pkg/linkedingo/push.go:12-39): it generates a random device id, builds the request with helpers that are not part of this model (`newAuthedRequest`, `WithCSRF`, `Do`), and does network I/O.
- The `http.Client` of `NewClient` (proxy, transport, cookie jar hook and the redirect-suppressing `CheckRedirect`): library configuration, not logic.
- The zerolog logging of the original arguments in `NewClient`: output only, with no effect on the client.
- `uuid.New()` in `NewClient`: randomness; the two UUIDs are parameters.
- The realtime fields `realtimeCtx`, `realtimeCancelFn` and `realtimeResp`: they are nil after `NewClient` and no code that uses them is part of this model. So no session lifecycle, cancellation or error classification is modelled, and neither is the order in which frames are dispatched.
- What user callbacks do: they are opaque, and only the fact of an invocation and its arguments is recorded.
- The Go `Handlers` value is passed by value and the model's dispatchers are pure functions, so "the table is unchanged" holds by construction and has no separate lemma.

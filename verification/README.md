# A model of a stealth HTTP client's connection pool, redirect machine and wire codecs

The repository is a Rust HTTP client that imitates a browser. Cloned clients share a
connection pool, an Alt-Svc cache, a hint cache and a cookie jar; a call picks HTTP/3 or
HTTP/2 for each hop, falls back from the former to the latter, and follows redirects. This
project models that machinery in Dafny and proves what holds of it in every run.

## The parts

- **The pool as a transition system** (`PoolProtocol`). Any number of calls run
  `execute_with_redirects` over shared slots. A step is what a call does between two points
  at which another call can run; each step locks, unlocks, dials, tests, transmits, reads a
  cache or stores into one, and every answer of the network is an open choice. The theorems
  about it are invariants over all interleavings:
  `PoolLocks` (slot typing, lock ownership, deadlock freedom), `PoolProgress` (every run ends,
  within a bound quadratic in the number of calls, and can only stop when every call has its
  outcome), `PoolDials` (amortised dial bound), `PoolClears` (exactly when a late clear wipes a
  connection that it did not test), `PoolPasses` (bound on the acquisition loop),
  `PoolHistory` (caches against the history of the run), `PoolFailures` (the HTTP/3 failures of
  that history are the network's; connections used untested), `PoolCalls` (calls follow the
  redirect machine and end as a recursive specification says), `PoolWire` (transmissions and
  the headers of every request sent), `PoolRecords` (every cached fact stems from an answered
  transmission and every completed hop was recorded; the choice of transport cannot be
  observed), `PoolReadings` (the same laws for the client itself, with what it reads out of a
  response and writes into a request spelled out), `PoolExamples` (reachable states that show
  what the pool does not promise).
- **The redirect machine** (`Redirects`, `Responses`): the loop variables, the request of a hop, what a
  response makes of them, and laws over whole chains of hops, with chains in
  `RedirectExamples` on which the referer is not what its policy asks for.
- **The client as an object** (`LoneClient` in `Client.dfy`): the same function in the
  source's imperative form, one caller over mutable slots, caches and jar, proved against
  the run that uses HTTP/2 alone. The specification it is proved against is the one the
  concurrent calls are held to, and every transmission it leaves on its wire is accounted for
  by a hop of the call.
- **Header injection** (`HeaderMaps`, `ChromeHeaders`): the in-place insertions and the
  never-indexed loop against a table that knows nothing of their order; then what the injected
  map says, header by header and context by context, and in which order.
- **Keys** (`PoolKeys`, `Decimals`): the texts under which slots and cache entries are filed
  tell any two keys apart, so the rest of the model uses structured keys.
- **The QUIC driver** (`QuicDriver`, `QuicDelivery`): the event loop as a class, and
  demultiplexing, conservation and exactly-once answering for every interleaving of events.
- **Byte protocols** (`ByteStreams`, `ConnectProxy`, `Socks5Proxy`, `BigEndian`, `Alps`,
  `TlsLists`): the proxy handshakes over arbitrarily segmented streams and the three encoders.

The URL library, the cookie matcher, the tests of which texts can become header values and
which values can be read back, the header parsers and the validity test of
`http::Request::builder` are function-valued parameters (`Web`, `Codec`): the theorems hold
for all of them. The server is a function of request and body where a theorem needs its
answers to depend on the request alone.

## Where the code differs from its documentation

The model follows the code; every point but the last has its lemmas.

- The comment at `src/client/pool.rs:247` announces a strict-origin-when-cross-origin
  referer. The code trims the referer once some earlier hop left the *site*, not when a hop
  changes origin; it never withholds it on a downgrade and never strips user, password and
  fragment. `Redirects.RefererPolicyHolds` gives the exact condition against section 8 of the
  W3C Referrer Policy, taking the previous URL as the referrer; `RedirectExamples` has a
  downgrade (`DowngradeSendsOrigin`) and a same-origin redirect (`PasswordAndFragmentAreSent`)
  on which it fails.
- IP addresses have no domain, so all of them count as one site
  (`Redirects.AddressesShareASite`, with a chain in `RedirectExamples.AddressLeaksToAddress`).
- A pooled connection that failed its readiness test is cleared whatever the slot holds by
  then, so one live connection per slot does not hold
  (`PoolExamples.StaleClearWipesFreshConnection`). `PoolClears.ClearsWhatItTested` says exactly
  when another connection is wiped, and the amortised bound holds (`PoolDials.AmortisedDials`).
- A proxy is documented as applied to all outbound connections (`src/client/pool.rs:113`), but
  the HTTP/3 arm of `dial` ignores it: `PoolWire.ProxyIsPassedOver` says exactly which
  transmissions go through it, `PoolRecords.NoAdvertisementNoBypass` when all do, and
  `PoolExamples.ProxyBypassed` shows one that does not.
- After a failed HTTP/3 dial a pooled HTTP/2 connection is used without a readiness test:
  `PoolFailures.UntestedAfterRefusal` says that this is the only such case, and
  `PoolExamples.DeadConnectionUsedUntested` has a call that fails by it.
- An advertisement of a plain-http URL without a port is filed under port 443 and looked up
  under port 80: `PoolHistory.AdvertisementIsFoundAgain` says exactly when a hop goes over
  HTTP/3, `PoolReadings.ClientHonoursAdvertisements` and `PoolWire.PlainHttpNeverUpgrades` what
  follows for whole runs, and `PoolExamples.AdvertisementMissed` shows a miss.
- The CONNECT reader takes tunnel bytes that arrive in the segment of the blank line:
  `ConnectProxy.NothingSwallowed` says exactly when it does not.
- A SOCKS5 host of more than 255 bytes and an ALPN name outside 1 to 255 bytes are encoded
  without complaint and do not read back: `Socks5Proxy.RequestRoundTrip` and
  `TlsLists.AlpnRoundTrip` are if-and-only-if.
- Only the first `accept-ch` and the first `alt-svc` header count, and the `#h2` slot stays
  locked during the fallback transmission; the model does the same.

## Model

| member | source | states |
|---|---|---|
| PoolLocks.SlotIsolation | src/client/pool.rs:207-220 | In every reachable state a slot holds nothing or a connection of its own transport dialled for its own host and port, through the proxy iff it is an HTTP/2 one, and no call is about to transmit over a connection to another authority |
| PoolLocks.ReachableShape | src/client/pool.rs:259-344 | In every reachable state slots are typed, the lock table agrees with where each call stands, and a call that holds a slot knows its contents |
| PoolLocks.WaitForAcyclic | src/client/pool.rs:296-327 | A call that waits while holding a slot holds `#h3` and waits for `#h2` of the same authority; every wait-for edge lowers a rank |
| PoolLocks.DeadlockFree | src/client/pool.rs:259-344 | Every reachable state with an unfinished call has an enabled step |
| PoolProgress.EveryRunEnds | src/client/pool.rs:192-503 | A run of n calls has at most 100 n^2 + 220 n steps, whatever the schedule and the network |
| PoolProgress.EveryRunFinishes | src/client/pool.rs:192-503 | A run that cannot go on has given every call its outcome, and every run can be continued to such a state |
| PoolDials.AmortisedDials | src/client/pool.rs:268-344 | Dials stored in an HTTP/2 slot never exceed one plus the readiness failures seen on it; an HTTP/3 slot is filled at most once ever |
| PoolDials.Http3SlotIsForGood | src/client/pool.rs:289-293 | Once an HTTP/3 slot is filled it holds that same connection in every later state of the run |
| PoolClears.ClearsWhatItTested | src/client/pool.rs:278-287 | When a call is about to clear an occupied slot, the slot holds the connection that failed its test iff nothing was installed since it peeked; otherwise it holds a younger one |
| PoolClears.LoneClearsWhatItTested | src/client/pool.rs:278-287 | A call that has the client to itself clears only the connection it tested |
| PoolExamples.StaleClearWipesFreshConnection | src/client/pool.rs:283-286 | A reachable state in which one step wipes a connection that failed no test, and one with three dials after two failures |
| PoolPasses.PassBound | src/client/pool.rs:268-344 | Passes through the acquisition loop are at most one plus the call's own readiness failures plus the passes lost to other calls' installs; the lost passes are at most the installs since it began and the failures at most one more than those |
| PoolPasses.LonePassBound | src/client/pool.rs:268-344 | A call that has the client to itself passes at most twice |
| PoolHistory.AltSvcAgreesWithHistory | src/client/pool.rs:598-611 | An authority is cached iff its latest event is an announcement rather than an HTTP/3 failure, and a hop goes over HTTP/3 iff that was so when it was routed |
| PoolFailures.FailuresAreTheNetworks | src/client/pool.rs:304-308 | A failure stands at a place of the log iff the network failed an HTTP/3 dial or transmission to that authority at the move that wrote there |
| PoolFailures.FailuresHaveCauses | src/client/pool.rs:381-383 | Every failed HTTP/3 transmission and dial has its failure at its own place of the log, and every failure in the log is one of these |
| PoolFailures.ConnectionsAreComeBy | src/client/pool.rs:278-301 | A call about to transmit has just seen that connection's readiness test pass or its own dial succeed, or has found the connection in the `#h3` slot, or takes over what the `#h2` slot holds after a failed HTTP/3 dial; a dialled connection is new and stored in its slot in that very step |
| PoolFailures.UntestedAfterRefusal | src/client/pool.rs:327-336 | An HTTP/2 connection is used neither tested nor dialled by its hop iff the hop's HTTP/3 dial failed and it did not dial anew |
| PoolExamples.DeadConnectionUsedUntested | src/client/pool.rs:334-335 | A reachable state in which a call failed over a pooled connection that another call's test had found dead, with no HTTP/2 dial failed |
| PoolReadings.ClientHintsAgree | src/client/pool.rs:585-595 | The client's hint cache holds exactly the origins some response of which has "sec-ch-ua-platform-version", in capitals or not, in its first accept-ch header, or that were preset; no step shrinks it; a request carries the platform version iff its origin was in it when it was read |
| PoolHistory.AdvertisementIsFoundAgain | src/client/pool.rs:198-219 | A hop of any run is routed over HTTP/3 iff some announcement for the authority it looks up has not been followed by a failure; an advertisement read from its own URL is one unless the URL is plain http without a port |
| PoolReadings.ClientHonoursAdvertisements | src/client/pool.rs:598-611 | After a response whose first alt-svc header has an "h" directly before a "3", from an https or explicit-port URL, the next hop of any call to that host and port goes over HTTP/3 unless the network failed HTTP/3 to it in between |
| PoolReadings.AnnouncementsMean | src/client/pool.rs:598-611 | An event announces HTTP/3 for an authority iff it is a preset of it or such a response from a URL with that host and that port, 443 by default |
| PoolReadings.ReadingsMean | src/client/pool.rs:574-611 | What the client takes out of a response: the hint, the advertisement, and every readable set-cookie value in order, character by character |
| PoolWire.PlainHttpNeverUpgrades | src/client/pool.rs:602-607 | However often they advertise, plain-http URLs of a host without a port are never requested over HTTP/3 unless something else announces it for port 80 |
| PoolExamples.AdvertisementMissed | src/client/pool.rs:602-607 | A reachable state in which a plain-http URL has just advertised h3 and the next hop to it is routed over HTTP/2 |
| PoolWire.ProxyIsPassedOver | src/client/pool.rs:113-114 | A transmission goes through the client's proxy iff there is none or its connection is HTTP/2; it goes over HTTP/3 only if an announcement stood when its hop was routed |
| PoolRecords.NoAdvertisementNoBypass | src/client/pool.rs:518-571 | A client whose Alt-Svc cache starts empty and that meets no answer advertising h3 sends everything over HTTP/2 and through its proxy |
| PoolExamples.ProxyBypassed | src/client/pool.rs:525-561 | A reachable state in which a client with a proxy has had an answer over a direct connection |
| PoolRecords.NothingInventedNothingForgotten | src/client/pool.rs:462-465 | Every response read into a cache answered a transmission of the hop that reads it, to that URL; every completed hop was answered exactly once and after that read exactly once for cookies, then hints, then advertisement |
| PoolRecords.TransportUnobservable | src/client/pool.rs:378-460 | Against a server whose answers depend on the request alone, under every interleaving, a call not ended by an HTTP/2 failure ends as the transport-free specification says |
| PoolCalls.Http3FailuresStayHidden | src/client/pool.rs:304-340 | A call ends in a transport error only at a step where an HTTP/2 dial or transmission of its own fails |
| PoolCalls.CallsFollowTheChain | src/client/pool.rs:467-507 | At most ten hops, of which only answers from 300 to 399 with a Location that can be joined are followed; success iff the last answer is no such redirect, and it is returned under its hop's URL; the limit error iff all ten were followed; an invalid URL only from a Location or a URL that is one |
| PoolWire.TransmissionBound | src/client/pool.rs:377-460 | At most twenty transmissions a call; two of one hop are a failed HTTP/3 one and then an HTTP/2 one with the same request and body; each over a connection to the authority of its URL |
| PoolWire.RequestsShowTheirHistory | src/client/pool.rs:222-450 | Every request sent, first or repeated, carries the platform version iff its origin asked before the read, the cookies the jar then matched, marked sensitive, and no user activation past hop 0 |
| PoolWire.RequestsFollowTheRedirects | src/client/pool.rs:346-450 | Every request sent, of a completed hop or not, goes to the text of its URL, which is the parse of the start's URL or of the last hop's URL joined with the text of its Location, over a connection to that host and its port, 80 or 443 by default; GET without a body once some earlier hop was answered 301, 302 or 303, otherwise the initial method and body; fetch-site, referer and origin by the earlier hops |
| PoolReadings.RequestsShowTheirContext | src/client/request.rs:58-141 | Every request sent by calls in a fetch context says mode, destination and accepted types of that context, the profile's browser headers, and the user activation, fetch-site, platform version and referer of its hop |
| PoolKeys.PoolKeyInjective | src/client/pool.rs:207-220 | For hosts without `@`, proxy, host, port and transport can be read back from a pool key |
| PoolKeys.AuthorityTextInjective | src/client/pool.rs:217-217 | Host and port can be read back from an Alt-Svc key |
| Redirects.SiteAt | src/client/pool.rs:484-493 | Fetch-site of hop n: "none", then "cross-site" once any hop left the site, otherwise "same-origin" or "same-site" by the last hop |
| Redirects.CrossedAt | src/client/pool.rs:484-493 | The cross-site flag is set iff some earlier hop left the site |
| Redirects.RefererAt | src/client/pool.rs:248-255 | The referer is the previous URL, cut to origin and "/" iff some earlier hop left the site |
| Redirects.RefererPolicyHolds | src/client/pool.rs:247-255 | Exactly when the referer is the one of strict-origin-when-cross-origin: downgrades, stripping and trimming included |
| RedirectExamples.DowngradeSendsOrigin | src/client/pool.rs:247-255 | A chain from https to http on which the policy sends nothing and the code the origin |
| RedirectExamples.PasswordAndFragmentAreSent | src/client/pool.rs:254-254 | A same-origin chain on which the policy strips password and fragment and the code sends them |
| Redirects.AddressesShareASite | src/client/pool.rs:487-489 | Between hosts without a domain no hop is cross-site and full URLs are sent as referers |
| RedirectExamples.AddressLeaksToAddress | src/client/pool.rs:487-489 | A chain from one IP address to another that counts as same-site and sends the whole URL |
| Redirects.Followed | src/client/pool.rs:467-500 | Everything one followed redirect does: status from 300 to 399, the joined URL, GET without a body on 301, 302 and 303 and the same method and body on the others, previous URL, cross-site flag, and one of the texts same-origin, same-site and cross-site |
| Redirects.NotFollowed | src/client/pool.rs:467-474 | A response ends the call iff its status is outside 300 to 399 or it has no Location, and breaks it iff it is a redirect whose Location cannot be joined |
| Redirects.UrlAt | src/client/pool.rs:193-195 | Hop n goes to the start's URL, or to the URL of hop n-1 joined with the text of its first Location, empty when it cannot be read |
| Redirects.MethodAndBodyAt | src/client/pool.rs:475-482 | GET without a body once some earlier hop was answered 301, 302 or 303; otherwise method and body are the initial ones, whichever other statuses from 300 to 399 were followed |
| Redirects.EntryPointLaw | src/client/pool.rs:152-162 | Through `get` and `post`, on every hop: body iff POST iff origin header (when the origin's text can be a header value); user activation on hop 0 and no other |
| Redirects.RequestHeaders | src/client/pool.rs:346-375 | The request line goes to the URL's text with the call's method; cookie, authorization, origin (with POST, PUT and PATCH), fetch-site, referer, user-activation and platform-version headers, name by name, with their sensitivity |
| Redirects.RequestShowsContext | src/client/request.rs:58-141 | A request shows its fetch context, its profile and its hop, header by header |
| Redirects.RequestOrder | src/client/request.rs:58-134 | Fields stand in the order cookie, origin, and then the order in which the browser sends its own |
| Responses.AskingMeans | src/client/pool.rs:585-590 | A response asks iff its first accept-ch value can be read and some 26 consecutive characters are the needle up to ASCII case |
| Responses.AdvertisingMeans | src/client/pool.rs:598-601 | A response advertises iff its first alt-svc value can be read and has an "h" directly before a "3" |
| Responses.CookiesInOrder | src/client/pool.rs:574-582 | The cookies kept are exactly the readable set-cookie values, in order, once each, with the URL they came from |
| LoneClient.Client.ExecuteWithRedirects | src/client/pool.rs:177-508 | For any caches and slots and any HTTP/3 failures, result, jar and hints are those of the HTTP/2-only run unless an HTTP/2 operation fails; at most twenty transmissions, each of which, failed or not, goes to the URL, host and port that the answers before it lead to, with the method, body, fetch-site, referer, origin, cookies and platform version that belong there; every completed hop has its one answer on the wire |
| LoneClient.Client.Hop | src/client/pool.rs:193-503 | One pass of the loop ends the call as the specification does or hands on the variables from which it continues; its transmissions all carry the one request of its hop, and its response is the answer to it |
| LoneClient.Client.Exchange | src/client/pool.rs:206-460 | The answer is the server's answer to the hop's one request; at most one transmission or a failed HTTP/3 one repeated over HTTP/2, also when the hop fails; the Alt-Svc entry goes exactly when the last one was over HTTP/2 |
| LoneClient.Client.SendOrFallBack | src/client/pool.rs:377-460 | Transmission over the acquired connection and its repetition, with the wire and the Alt-Svc cache they leave |
| LoneClient.Client.FallBack | src/client/pool.rs:381-455 | The second transmission carries the same request over HTTP/2 and the Alt-Svc entry is evicted |
| LoneClient.Client.Acquire | src/client/pool.rs:268-344 | At most two passes; a pooled HTTP/3 connection is used as it is, a pooled HTTP/2 one is tested once and used iff ready, otherwise one is dialled into the slot; after a failed HTTP/3 dial the pooled HTTP/2 connection is taken over and the Alt-Svc entry goes; other slots are untouched |
| LoneClient.Client.PooledOrDialled | src/client/pool.rs:311-336 | The pooled HTTP/2 connection as it is, or a new one, and the slots afterwards |
| LoneClient.Client.ReadyOrDialled | src/client/pool.rs:396-417 | The pooled HTTP/2 connection if its one test passes, otherwise a new one, stored in its slot, or an HTTP/2 failure with the slots unchanged |
| LoneClient.Client.MakeRequest | src/client/pool.rs:346-375 | The request built by in-place insertion goes to the URL's text with the call's method and is the one of the specification |
| LoneClient.Client.Redirect | src/client/pool.rs:467-503 | The updates of the loop variables, one after the other, follow exactly the answers from 300 to 399 with a Location, to the joined URL, as a GET without a body on 301, 302 and 303 and unchanged on the others, with the fetch-site of the two URLs |
| LoneClient.Client.StoreCookies | src/client/pool.rs:574-582 | The loop adds every readable set-cookie text in order |
| LoneClient.FollowAllIsReplay | src/client/pool.rs:192-508 | The HTTP/2-only run is the replay that concurrent calls are held to |
| LoneClient.LoneAndConcurrentAgree | src/client/pool.rs:177-508 | A lone call and a call of any interleaving with the same start and reads end alike |
| ChromeHeaders.InjectTable | src/client/request.rs:58-141 | After the injection an owned name holds exactly its table entry, any other name keeps its values, cookie and authorization come out sensitive |
| ChromeHeaders.InjectIdempotent | src/client/request.rs:58-141 | Injecting twice is injecting once, order and flags included |
| ChromeHeaders.InjectedHeaders | src/client/request.rs:58-141 | For every context: sec-fetch-mode is navigate iff the context is Navigate, Form or Iframe, which is iff user activation goes with an initial request, and so on for every mode, destination and list of accepted types; every other header by its text or its field of the profile; cookie and authorization sensitive; the rest untouched |
| ChromeHeaders.InjectedOrder | src/client/request.rs:58-134 | What was in the map keeps its place and the new names follow in the browser's order |
| ChromeHeaders.InjectChromeHeaders | src/client/request.rs:49-148 | The in-place insertions and the marking loop leave the specified map, which says all of that for the context they are given |
| ChromeHeaders.MarkNeverIndexed | src/client/request.rs:137-141 | The loop marks every cookie and authorization value and changes nothing else |
| QuicDriver.Driver.Run | src/client/quic.rs:227-390 | The loop over any turns leaves the table and the replies that its deeds, in order, leave |
| QuicDriver.DeedsOfTurn | src/client/quic.rs:227-390 | What each turn of a run adds, read off the turns alone: rejections before a packet has brought the HTTP/3 layer up, admissions and refusals after it, the polled events in order, and nothing from the turn on that ends the loop |
| QuicDriver.Driver.Turn | src/client/quic.rs:227-389 | One turn: the loop ends exactly on a closed connection or an established one whose HTTP/3 layer cannot be built, otherwise the turn's deeds happen |
| QuicDriver.Driver.Submit | src/client/quic.rs:249-287 | A command is admitted with an empty request under its stream, or answered at once: not established without an HTTP/3 layer, refused without a stream |
| QuicDriver.Driver.OnHeaders | src/client/quic.rs:323-344 | A header block is folded into its own request field by field; no other request changes |
| QuicDriver.ReadBodyMeans | src/client/quic.rs:345-354 | A body event yields all reads before the first empty one, concatenated |
| QuicDriver.Driver.OnData | src/client/quic.rs:345-354 | The body of the stream's request grows by exactly the reads before the first empty one; nothing else changes |
| QuicDriver.Driver.OnEvent | src/client/quic.rs:322-375 | Finish and reset remove the request and answer it; others accumulate |
| QuicDelivery.Demultiplexed | src/client/quic.rs:321-376 | For every interleaving, each admitted command stands where an accumulator of its own stream's events stands: pending in the same state, or answered with the same answer; each token is answered at most once |
| QuicDelivery.AnswerMeaning | src/client/quic.rs:329-366 | The answer holds the last valid `:status` or 200, every valid field in order, and as body the concatenation of all reads of all body events before the finish, or the reset code |
| QuicDelivery.NothingLost | src/client/quic.rs:225-390 | At every point the commands taken are as many as the answered and the pending ones |
| QuicDelivery.AlwaysInStep | src/client/quic.rs:225-390 | Every command taken is pending or answered and not both, and nothing else is |
| QuicDelivery.EveryCallerIsAnswered | src/client/quic.rs:147-162 | Once the driver is gone every caller has exactly one outcome: its answer, its rejection, or a closed channel |
| ConnectProxy.VerdictMeans | src/client/proxy.rs:63-89 | Byte by byte: aborted iff no CR LF CR LF ends within 4096 bytes, accepted iff one does and the stream begins with "HTTP/1.1 200" or "HTTP/1.0 200" |
| ConnectProxy.ConnectRoundTrip | src/client/proxy.rs:56-59 | The CONNECT request reads back to host and port, in the request line and the Host header, iff the host has no space or control byte |
| ConnectProxy.DialHttp | src/client/proxy.rs:49-89 | The verdict is a function of the bytes, however segmented: 200 status line and blank line within 4096 bytes; and how many bytes were taken |
| ConnectProxy.NothingSwallowed | src/client/proxy.rs:68-80 | The tunnel starts at the next byte iff the blank line ends at a segment boundary or at the end of the buffer |
| ConnectProxy.StatusSettled | src/client/proxy.rs:77-79 | Once a blank line is in, more bytes cannot change the status test |
| Socks5Proxy.DialSocks5 | src/client/proxy.rs:92-158 | Verdict, bytes written (5, 1, 0 and then the request) and bytes consumed as functions of the server's bytes, for every segmentation |
| Socks5Proxy.FailuresMean | src/client/proxy.rs:102-157 | Byte by byte, exactly when the method is refused, the connection failed and with which code, the address type is unknown, or the stream ends too soon |
| Socks5Proxy.TunnelStartsAtNextByte | src/client/proxy.rs:119-157 | After one method selection and one success reply of any address type the next byte belongs to the tunnel |
| Socks5Proxy.TunnelTakesExactlyTheReplies | src/client/proxy.rs:102-157 | A tunnel opens only after bytes that are one method selection and one success reply |
| Socks5Proxy.RequestRoundTrip | src/client/proxy.rs:111-117 | The request parses back to host and port iff the host has at most 255 bytes |
| Alps.BuildAlpsPayload | src/client/connector.rs:71-92 | 6 (4 + k) bytes, six a setting with the highest byte first: settings 1, 2 (1 iff push is enabled), 4, 6 and then the k extras |
| Alps.AnnounceTwice | src/http2/handshake.rs:19-32 | The payload decodes to exactly what the configured HTTP/2 builder announces, in its order, and then the extras |
| Alps.DecodeEncode | src/client/connector.rs:77-91 | Encoding and decoding settings is the identity |
| TlsLists.BuildAlpn | src/tls/connector.rs:94-98 | The loop computes the length-prefixed list |
| TlsLists.AlpnRoundTrip | src/tls/connector.rs:94-98 | The buffer reads back to the protocol list iff every name has 1 to 255 bytes |
| TlsLists.CurveNameMeans | src/tls/connector.rs:69-81 | Groups 4588, 29, 23 and 24 by their names, any other by its number in decimal digits |
| TlsLists.BuildCurves | src/tls/connector.rs:69-81 | The loop computes the names joined by colons |
| TlsLists.CurvesRoundTrip | src/tls/connector.rs:69-81 | A nonempty list splits back to its names, and two lists with the same text are the same list |

## Left out

- Sockets, DNS, TLS and QUIC handshakes, timeouts, lock poisoning and I/O errors inside a
  handshake: a dial, a readiness test or a transmission succeeds or fails by choice.
- `quiche` and `http2` internals: of the former only fresh stream ids (`QuicDelivery.Fresh`) and
  in-order body reads are assumed; the byte count returned by `send_body` is ignored by the
  code, so nothing is claimed about complete uploads.
- URL parsing and joining, cookie matching and the parsers of header bytes are arbitrary
  functions; `PoolKeys.PoolKeyInjective` assumes hosts without `@`.
- The bodies of `http::Request` and of responses are byte sequences; streaming, decompression
  and JSON decoding in `src/client/response.rs` are not modelled.
- Profiles are arbitrary strings and flags; user agents, brand lists and fingerprints are data.
- `Client::builder` and its setters, `configure_chrome_h3`, `configure_chrome_quic_transport` and
  the rest of `configure_builder`: straight-line setters.
- Header names are an enumeration of the names the client uses plus an arbitrary text; the
  order in which the `http` crate iterates its map is modelled as insertion order.
- Lower-casing of an accept-ch value beyond ASCII: a value that can be read back as text holds
  only visible ASCII characters.
- `String::from_utf8_lossy` in the CONNECT reader is modelled as a search in the bytes, which
  finds the same ASCII text.
- LoneClient.Client.ExecuteWithRedirects: one caller without interference, because the class
  has no concurrency; interleavings are the subject of `PoolProtocol`.
- In `LoneClient` the server is a function of request and body; servers that remember are
  covered by the transition system, where an answer is any response.
- Time: `PoolProgress` counts steps of the model; a dial or an answer that never comes is a run
  that has not been continued.
- QuicDriver.Driver.Run: takes a finite sequence of turns; flushing outgoing packets and the
  timer do not touch the table of requests and appear only as turns without deeds.
- ConnectProxy.DialHttp: the text of the error that quotes the first response line is left out.
- The failure of the second request's construction, which cannot occur as it has the inputs of
  the first.
- The pool starts empty in `PoolProtocol`, as it does in the source, whose slots are private; the
  caches and the jar, which are public fields, start with anything.

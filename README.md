# centrifugal-php-client, modelled in Dafny

This project models the PHP client for the Centrifugo messaging server's
HTTP API. The client does three things:

- **HashGenerator** (`hash_generator.dfy`) computes an HMAC over a list of
  strings. It feeds the strings to the hash extension one at a time, in
  order, with nothing between them. The defaults are algorithm `sha256`
  and secret `secret`.
- **Transport** (`transport.dfy`) POSTs `{data, sign}` to `host + "/api/"`.
  It has four optional settings: CA file, CA directory, connect timeout and
  total timeout. Peer and host verification are always switched on. A
  status of 200 returns the decoded body; any other status raises a
  `TransportException` whose message gives the status code, the cURL error
  and the body.
- **Client** (`client.dfy`) builds a `{method, params}` envelope for each
  API command: publish, broadcast, unsubscribe, disconnect, presence,
  history, channels and stats. It JSON-encodes the envelope and stops
  before the transport if encoding fails. Otherwise it signs exactly the
  encoded string and passes `{data, sign}` to the transport. It also issues
  API signatures, client connection tokens and private-channel signs.

`php.dfy` holds what the library gets from PHP: values and arrays,
truthiness, integer-to-string conversion, and the foreign extensions.
`exceptions.dfy` holds the two exception classes.

The foreign capabilities are passed in as function values in `Php.Runtime`:
`hmac(algo, key, message)`, a partial `jsonEncode` and a total `jsonDecode`.
Every property proved here therefore holds for any HMAC and any JSON codec.
The network is an input, `Transport.Exchange`. It says whether `curl_init`
gave a handle, and gives the HTTP status (0 when there was no response),
the cURL error text and the body. The hash extension's incremental context
(`hash_init` / `hash_update` / `hash_final`) is a value that accumulates
its input; finalising it computes the MAC of everything fed so far.

The transport keeps a ghost log, `calls`, of every call made into
`communicate`: the host and the fields to post. Every Client operation
states how it changes that log: it is unchanged when the transport was
never called, and otherwise grows by exactly the one call made. The
operation's outcome is a `Result` that is either the decoded value or the
exception raised.

Three behaviours of the code worth noting:
- The timeouts are passed to `CURLOPT_CONNECTTIMEOUT` and `CURLOPT_TIMEOUT`,
  which are in seconds, not milliseconds.
- A malformed response body under status 200 is not an error. The client
  returns whatever `json_decode` gives, which is null for such a body.
- The encoding check is PHP's `!$data`. It also rejects the strings `""`
  and `"0"`, not only `false`.

## Model

| member | source | states |
|---|---|---|
| HashGenerator.HashGenerator.constructor | src/HashGenerator/HashGenerator.php:7-22 | the generator keeps the secret and algorithm it is given; with no arguments they are "secret" and "sha256" |
| HashGenerator.HashGenerator.Generate | src/HashGenerator/HashGenerator.php:28-37 | feeding the parts to a fresh MAC context in order gives one MAC under (algo, secret) over their concatenation; with no parts it is the MAC of the empty string; the generator's fields stay the same |
| HashGenerator.ConcatAppend | src/HashGenerator/HashGenerator.php:32-34 | feeding a list in two pieces feeds the concatenation of the two pieces |
| HashGenerator.PartInPlace | src/HashGenerator/HashGenerator.php:32-34 | each part appears unchanged in the signed input, right after the parts before it, so the order is kept |
| HashGenerator.DigestOfJoined | src/HashGenerator/HashGenerator.php:32-34 | generate(parts) equals generate([concatenation of parts]) |
| HashGenerator.DigestOfRegrouped | src/HashGenerator/HashGenerator.php:32-34 | regrouping the parts does not change the signature: a + b signs like [concat(a), concat(b)] |
| HashGenerator.SeparatorFreeCollision | src/HashGenerator/HashGenerator.php:32-34 | no separator is inserted: ["ab","c"] and ["a","bc"] get the same signature |
| Php.Decimal | src/Transport/Transport.php:72-73 | the string PHP makes of the status code is a non-empty digit string with no leading zero |
| Php.DecimalRoundTrip | src/Transport/Transport.php:72-73 | reading that digit string back gives the status code |
| Transport.Transport.constructor | src/Transport/Transport.php:10-24 | a new transport has all four settings unset (null) and an empty call log |
| Transport.Transport.Communicate | src/Transport/Transport.php:33-82 | the call (host, data) is appended to the call log and the settings are only read; no handle and "CURL init failure" when curl_init fails; otherwise the URL is host + "/api/"; RETURNTRANSFER and POST are 1; each timeout and CA option is set exactly when its field is non-null, to that field's value; VERIFYPEER is true and VERIFYHOST is 2 whatever the settings; the posted fields are `data`; the result is Outcome of the exchange |
| Transport.ResponseMessageCode | src/Transport/Transport.php:71-74 | the status code can be read back from the head of the error message |
| Transport.ResponseMessageError | src/Transport/Transport.php:75 | the cURL error text occurs verbatim in the error message |
| Transport.ResponseMessageBody | src/Transport/Transport.php:76-77 | the error message ends with the raw body |
| Transport.OutcomeSucceedsOnlyOn200 | src/Transport/Transport.php:70-81 | a call succeeds if and only if a handle was obtained and the status is 200, and then it returns whatever the decoder gives for the body |
| Transport.OutcomeReportsFailure | src/Transport/Transport.php:70-79 | any other status, 0 included, raises TransportException; the status code can be read from its message, which also contains the cURL error and ends with the body |
| Transport.Transport.GetCert | src/Transport/Transport.php:88-91 | returns the certificate file setting |
| Transport.Transport.SetCert | src/Transport/Transport.php:97-100 | sets the certificate file and nothing else |
| Transport.Transport.GetCAPath | src/Transport/Transport.php:106-109 | returns the CA directory setting |
| Transport.Transport.SetCAPath | src/Transport/Transport.php:115-118 | sets the CA directory and nothing else |
| Transport.Transport.GetConnectTimeoutOption | src/Transport/Transport.php:123-126 | returns the connect-timeout setting |
| Transport.Transport.GetTimeoutOption | src/Transport/Transport.php:131-134 | returns the total-timeout setting |
| Transport.Transport.SetConnectTimeoutOption | src/Transport/Transport.php:139-142 | sets the connect timeout and nothing else |
| Transport.Transport.SetTimeoutOption | src/Transport/Transport.php:147-150 | sets the total timeout and nothing else |
| Client.EnvelopeRoundTrip | src/Client/Client.php:46-153 | a reader that recovers the command from the method name and the params keys in order reads every command's envelope back as that same command |
| Client.ParseEnvelopeExact | src/Client/Client.php:46-168 | conversely, an envelope that reader reads as a command is exactly the one the client builds for it, so distinct commands never share an envelope |
| Client.SignedFieldsVerify | src/Client/Client.php:174-180 | the posted `sign` is the MAC of exactly the posted `data` under the client's algorithm and secret |
| Client.Client.constructor | src/Client/Client.php:27-37 | host and secret are kept; an injected transport or generator is used as given; otherwise a fresh default transport with nothing set and an empty call log, and a fresh HashGenerator keyed by the client's own secret with sha256 |
| Client.Client.Send | src/Client/Client.php:161-181 | if the encoded envelope is falsy, raises "JSON message encoding failure" and leaves the transport's call log unchanged; otherwise the log grows by exactly one call, with the client's host, data = the encoded string and sign = its API signature, and the transport's outcome is returned unchanged |
| Client.Client.Publish | src/Client/Client.php:46-54 | sends method "publish" with params {channel, data} |
| Client.Client.Broadcast | src/Client/Client.php:63-71 | sends method "broadcast" with params {channels, data} |
| Client.Client.Unsubscribe | src/Client/Client.php:80-88 | sends method "unsubscribe" with params {channel, user}; the key is `user` |
| Client.Client.Disconnect | src/Client/Client.php:96-103 | sends method "disconnect" with params {user} |
| Client.Client.Presence | src/Client/Client.php:111-118 | sends method "presence" with params {channel} |
| Client.Client.History | src/Client/Client.php:126-133 | sends method "history" with params {channel} |
| Client.Client.Channels | src/Client/Client.php:140-143 | sends method "channels" with empty params |
| Client.Client.Stats | src/Client/Client.php:150-153 | sends method "stats" with empty params |
| Client.Client.GenerateApiSign | src/Client/Client.php:187-190 | generate([data]), which is the MAC of exactly data |
| Client.Client.GenerateClientToken | src/Client/Client.php:200-209 | generate([user, timestamp, info]), which is the MAC of user + timestamp + info; info defaults to "" |
| Client.Client.GenerateChannelSign | src/Client/Client.php:217-226 | generate([client, channel, info]), which is the MAC of client + channel + info; info defaults to "" |

## Left out

- The HMAC and SHA-256 computation of the hash extension is foreign. It is the unknown `Php.Runtime.hmac`; nothing is said about its output, such as lower-case hex.
- `json_encode` and `json_decode` are foreign. They are the unknown `jsonEncode` (None for `false`) and `jsonDecode`. No byte format or key order is assumed.
- cURL I/O, TLS and timeouts actually firing are network behaviour. The exchange is an input. A failed `curl_exec` appears as an empty body, which is how PHP prints `false` in the message.
- `http_build_query` is foreign. The model records the `{data, sign}` list it is given.
- `curl_init` failing depends only on the environment. It is the `initOk` flag of the exchange.
- Transport.Transport.Communicate: keeps the value each option was last set to, not the order of the `curl_setopt` calls. Under cURL's last-set-wins rule the order has no effect here.
- Client.Client.constructor: injection is limited to the concrete `Transport` and `HashGenerator` classes. `TransportInterface`, `HashGeneratorInterface` and other implementations of them are not part of this model.
- `ClientInterface` and `TransportInterface` declare no behaviour. The exception classes and `HashGeneratorInterface` are not part of this model beyond the two exception kinds and their messages.
- `Client::VERSION` is never used by the code and is not modelled.
- `PHP_EOL` is taken to be `"\n"`.
- PHP values are limited to null, booleans, integers, strings and arrays. Floats and objects are left out. Arrays are ordered key/value lists, and their keys are not forced to be unique.
- The PHP code is dynamically typed. The token helpers' arguments are modelled as strings, `cert` and `caPath` as optional strings, and the timeouts as optional integers.
- HashGenerator.HashGenerator.Generate: `hash_init` with an unsupported algorithm, or with an empty key (a warning and `false` under PHP 7, a `ValueError` under PHP 8), fails. The model always returns the MAC, so it does not capture that an empty secret makes generate, GenerateApiSign, GenerateClientToken, GenerateChannelSign and Send (after encoding) fail.
- Client.Client.Send: the handle that `communicate` configures is not returned by send; its options are stated on Transport.Transport.Communicate.

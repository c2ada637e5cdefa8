# MQTT client bootstrap and payload decompression, modelled in Dafny

This project models the decision logic of `gm_client`, a small Go helper in
front of the paho MQTT client. It covers three parts of `mqtt.go`:

- **Format sniffer.** `isGzipData` and `isZlibData` classify a message
  payload by its leading bytes. Gzip is recognised by the ID bytes 0x1F 0x8B
  (section 2.3.1 of RFC 1952). Zlib is recognised by CMF 0x78 followed by
  FLG 0x01, 0x9C or 0xDA (section 2.2 of RFC 1950).
- **Decompressor.** `UnCompress` tries gzip first, then zlib, and otherwise
  passes the payload through unchanged. `gunzipData` and `gunzlibData` open
  a stream reader and drain it into a buffer.
- **Transport choice.** The first branch of `NewMqttClient` picks the broker
  URL `tcp://`, `ssl://` or `mqtt://` + `host:port`, and may install a
  single-auth TLS configuration. The input is the `MqttClient` record of
  `model.go`.

Modules:

- `Wrappers` (`wrappers.dfy`): `Option` and `Result`.
- `Sniff` (`sniff.dfy`): `IsGzipData`, `IsZlibData`, `Classify` into
  `Gzip | Zlib | Raw`. Also a predicate for a well-formed RFC 1950 header,
  used as an independent reference.
- `Decompress` (`decompress.dfy`): `Inflate` models `gunzipData` and
  `gunzlibData`. `UnCompress` models the dispatch. An `mqtt.Message` is its
  payload `seq<bv8>`.
- `Decimal` (`decimal.dfy`): Go's `%d` on an `int` (`FormatInt`), with a
  parser (`ParseInt`) proved to be its exact inverse.
- `Broker` (`broker.dfy`): the `MqttClient` datatype, `BrokerUrl`, the
  transport choice `SelectTransport`, and an inverse URL parser
  (`ParseBrokerUrl`). A `ClientOptions` class models the two fields of the
  options builder that the branch sets, and `ConfigureTransport` makes the
  same builder calls as the source.

The gzip and zlib codecs are library code. Each is a `StreamCodec` parameter
made of two functions:

- `newReader` stands for `gzip.NewReader` / `zlib.NewReader`, which can fail
  on a bad header.
- `readFrom` stands for `bytes.Buffer.ReadFrom` on that reader. It returns
  the bytes it appended and the first error other than end-of-stream.

Every property of `Inflate` and `UnCompress` therefore holds for every codec.

Behaviour of the code worth knowing:

- Both sniffers require **more than two** bytes (`len(data) > 2`,
  mqtt.go:149 and mqtt.go:154). So the two-byte payload `1F 8B` is raw and
  is delivered unchanged (`BareGzipIdPassesThrough`).
- Mutual TLS is never chosen: `NewDoubleTlsConfig` (mqtt.go:86) is never
  called, and `crtPem` and `keyPem` play no part in the choice
  (`NeverMutualTls`, `SelectionDependsOnlyOnEndpoint`).
- There are three branches, not two (mqtt.go:22-35). Port 1883 gives
  `tcp://` without TLS. Any other port with a non-empty `ca` gives `ssl://`
  with single-auth TLS. Any other port with an empty `ca` gives
  `mqtt://host:port` without TLS.
- The broker URL is formatted in `mqtt.go` itself (mqtt.go:23, 27, 33), so
  the formatting and Go's `%d` on the port are modelled here
  (`ParseBrokerUrlRoundTrip`).

One consequence of the sniffer's fixed FLG list: `78 5E` (FLEVEL 1) is a
well-formed RFC 1950 header, yet such a payload is classified raw and passed
through undecoded (`Rfc1950HeaderNotRecognised`). Go's own `compress/zlib`
writes that header for compression levels 2 to 5.

## Model

| member | source | states |
|---|---|---|
| `Sniff.IsGzipData` | mqtt.go:148-150 | `isGzipData`: more than two bytes and the gzip ID `1F 8B`. Its contract is stated by `ClassifyByHeader` and `ShortPayloadIsRaw`. |
| `Sniff.IsZlibData` | mqtt.go:153-155 | `isZlibData`: more than two bytes, CMF `78` and FLG `01`, `9C` or `DA`. Its contract is stated by `ClassifyByHeader`, `ZlibDataHasRfc1950Header` and `Rfc1950HeaderNotRecognised`. |
| `Sniff.Classify` | mqtt.go:118-143 | The branch `UnCompress` takes: gzip is tested first (line 118), then zlib (line 129), otherwise raw (line 139). Its contract is stated by `ClassifyByHeader` and `GzipZlibExclusive`. |
| `Sniff.ClassifyByHeader` | mqtt.go:147-155 | A payload of three or more bytes is gzip exactly when its first two bytes are the RFC 1952 ID, zlib exactly when they are one of the three accepted RFC 1950 headers, and raw otherwise. Any payload of two bytes or fewer is raw. |
| `Sniff.GzipZlibExclusive` | mqtt.go:148-155 | No payload is both gzip and zlib. |
| `Sniff.ShortPayloadIsRaw` | mqtt.go:148-155 | With two bytes or fewer, neither predicate holds, not even for the bare magic bytes. |
| `Sniff.ZlibDataHasRfc1950Header` | mqtt.go:153-155 | Every accepted zlib header is well formed under RFC 1950: method 8, CINFO at most 7, no preset dictionary, check bits a multiple of 31. |
| `Sniff.Rfc1950HeaderNotRecognised` | mqtt.go:153-155 | The converse fails: `78 5E` is well formed but a payload starting with it is classified raw. |
| `Decompress.Inflate` | mqtt.go:158-191 | `gunzipData` and `gunzlibData`, which differ only in the codec: open a reader, drain it, return the buffer or the first error. Its contract is stated by `InflateSucceeds` and `InflateFails`. |
| `Decompress.InflateSucceeds` | mqtt.go:158-191 | A decode succeeds with `out` exactly when the reader opens and drains to end-of-stream yielding `out`. The whole buffer is returned. |
| `Decompress.InflateFails` | mqtt.go:158-191 | A decode fails with `e` exactly when opening fails with `e` or draining stops with `e`. The bytes read before the error are discarded. |
| `Decompress.UnCompress` | mqtt.go:115-145 | The dispatch: gzip decode, zlib decode, or the payload unchanged, with a decoder error passed on. Its contract is stated by `RawPassesThrough`, `GzipUsesOnlyGzipCodec`, `ZlibUsesOnlyZlibCodec`, `ErrorComesFromSelectedDecoder` and `SuccessComesFromSelectedDecoder`. |
| `Decompress.RawPassesThrough` | mqtt.go:139-144 | A payload that is neither gzip nor zlib is returned unchanged with no error, whatever the codecs. |
| `Decompress.HelloPassesThrough` | mqtt.go:139-144 | "Hello" (48 65 6C 6C 6F) is raw and comes back as the same five bytes. |
| `Decompress.BareGzipIdPassesThrough` | mqtt.go:139-150 | The two-byte payload `1F 8B` is raw and is delivered unchanged. |
| `Decompress.GzipUsesOnlyGzipCodec` | mqtt.go:118-128 | A gzip payload's result is the gzip decode, and changing the zlib codec does not change it. |
| `Decompress.ZlibUsesOnlyZlibCodec` | mqtt.go:129-138 | A zlib payload's result is the zlib decode, and changing the gzip codec does not change it. |
| `Decompress.ErrorComesFromSelectedDecoder` | mqtt.go:118-136 | `UnCompress` fails with `e` exactly when the payload was sniffed as gzip or zlib and that decoder failed with `e`. There is no fallback to the raw bytes. |
| `Decompress.SuccessComesFromSelectedDecoder` | mqtt.go:115-145 | `UnCompress` yields `out` exactly when the selected decoder yields `out`, or the payload is raw and `out` is the payload. |
| `Decimal.NatDigits` | mqtt.go:23 | The digits written for a natural number are non-empty, all decimal digits, and have no leading zero. |
| `Decimal.FormatInt` | mqtt.go:23 | `%d` output is non-empty, has a leading '-' exactly for negative values, is otherwise all digits, and never contains ':'. |
| `Decimal.ParseFormatInt` | mqtt.go:23 | Parsing the output of `%d` gives back the integer. |
| `Decimal.FormatParseInt` | mqtt.go:23 | Every string the parser accepts is exactly the `%d` output of its value, so `%d` is one-to-one. |
| `Broker.BrokerUrl` | mqtt.go:23-33 | The `Sprintf("<scheme>://%s:%d", broker, port)` of the three branches. Its contract is stated by `ParseBrokerUrlRoundTrip`, which shows it is one-to-one. |
| `Broker.ParseBrokerUrlRoundTrip` | mqtt.go:23-33 | A formatted broker URL gives back its scheme, host and port, even when the host contains ':'. |
| `Broker.SelectTransport` | mqtt.go:22-35 | Port 1883 gives tcp with no TLS, regardless of `ca`. Another port with a non-empty `ca` gives ssl with a single-auth config built from `ca`. Otherwise the result is mqtt with no TLS. The URL is scheme://broker:port. |
| `Broker.NeverMutualTls` | mqtt.go:22-35 | A configured TLS is always single-auth, and only with a non-empty `ca` on a port other than 1883. |
| `Broker.SelectionDependsOnlyOnEndpoint` | mqtt.go:22-35 | Two profiles that agree on `broker`, `port` and `ca` get the same transport. Client certificate, key, credentials and the other fields have no effect. |
| `Broker.SelectedUrlNamesEndpoint` | mqtt.go:22-35 | The selected URL parses back to the chosen scheme with the profile's host and port. |
| `Broker.ClientOptions.constructor` | mqtt.go:20 | New options hold no broker and no TLS configuration. |
| `Broker.ClientOptions.AddBroker` | mqtt.go:23-33 | Appends one broker URL and leaves the TLS configuration alone. |
| `Broker.ClientOptions.SetTLSConfig` | mqtt.go:29-30 | Installs the given TLS configuration and leaves the broker list alone. |
| `Broker.ConfigureTransport` | mqtt.go:20-35 | The source's builder calls add exactly the URL `SelectTransport` chooses. They install a TLS configuration only when it chooses one, and otherwise leave the configuration as it was. |
| `Broker.NewTransportOptions` | mqtt.go:20-35 | On fresh options the builder ends up holding only the selected URL and the selected TLS configuration. |

## Left out

- Connecting: `mqtt.NewClient`, `Connect`, `token.Wait` and the `panic` on a connect error (mqtt.go:45-49). These are network I/O in the paho library.
- The setters for client ID, user name, password and default publish handler (mqtt.go:38-44). They copy profile fields into the options and decide nothing.
- The callbacks `messagePubHandler`, `connectHandler` and `connectLostHandler` (mqtt.go:56-70). The transport runs them concurrently, and apart from the `UnCompress` call they only log.
- Logging: every `fmt.Println` / `fmt.Printf` is a side effect with no effect on results.
- `NewSingleTlsConfig` internals (mqtt.go:75-83): PEM parsing into an `x509.CertPool` is library code. The model records only that the configuration is built from `ca` (`SingleAuth(ca)`). The case of a PEM with no valid certificate, which gives an empty pool, is therefore not represented.
- `NewDoubleTlsConfig` (mqtt.go:86-110): it is never called. The `MutualAuth` constructor exists only so that `NeverMutualTls` can state that it is never chosen. Its key-pair parsing, its `panic` and its `InsecureSkipVerify` setting are not modelled.
- Codec internals: real gzip and zlib decoding are `compress/gzip` and `compress/zlib`. No compress/decompress round trip is claimed, because the code implements none.
- The deferred `Close` of the decoder (mqtt.go:164, mqtt.go:182): its error is discarded, so it has no effect on the result.
- Go's distinction between a `nil` slice and an empty one: a failed `UnCompress` is `Failure(e)` rather than `(nil, err)`, and the raw path returns the payload as it is.
- paho's `AddBroker` rewrites `%` signs and parses the URL with `url.Parse`. When parsing fails (for example, a broker name containing a space), it logs the error and does not add the URL. That code is not part of this model. `ClientOptions.AddBroker` always records the URL as given, so `ConfigureTransport`'s "exactly one URL is added" is a property of the modelled builder, not of paho.
- Go's `int` is 32 or 64 bits wide, depending on the platform. Ports and `qos` are unbounded integers here. `%d` formatting is exact for every integer, so no value in Go's range, on either width, is treated differently.
- `test/go-connect.go`: a stand-alone example program (connect, subscribe, wait for a signal) with no logic of its own.

/** The client: builds a {method, params} envelope per API command, encodes
    it, signs exactly the encoded string and hands {data, sign} to the
    transport; it also issues the connection and channel tokens. */
module Client {
  import opened Php
  import opened Exceptions
  import HashGenerator
  import Transport

  const EncodingFailureMessage: string := "JSON message encoding failure"

  /** The commands of the server's HTTP API that the client issues. */
  datatype Command =
    | Publish(channel: string, data: PhpArray)
    | Broadcast(channels: PhpArray, data: PhpArray)
    | Unsubscribe(channel: string, user: string)
    | Disconnect(user: string)
    | Presence(channel: string)
    | History(channel: string)
    | Channels
    | Stats

  /** The method name each command is sent under. */
  function MethodName(c: Command): string
  {
    match c
    case Publish(_, _) => "publish"
    case Broadcast(_, _) => "broadcast"
    case Unsubscribe(_, _) => "unsubscribe"
    case Disconnect(_) => "disconnect"
    case Presence(_) => "presence"
    case History(_) => "history"
    case Channels => "channels"
    case Stats => "stats"
  }

  /** The params each command is sent with, keys in this order. */
  function Params(c: Command): PhpArray
  {
    match c
    case Publish(channel, data) => [(StrKey("channel"), Str(channel)), (StrKey("data"), Arr(data))]
    case Broadcast(channels, data) => [(StrKey("channels"), Arr(channels)), (StrKey("data"), Arr(data))]
    case Unsubscribe(channel, user) => [(StrKey("channel"), Str(channel)), (StrKey("user"), Str(user))]
    case Disconnect(user) => [(StrKey("user"), Str(user))]
    case Presence(channel) => [(StrKey("channel"), Str(channel))]
    case History(channel) => [(StrKey("channel"), Str(channel))]
    case Channels => []
    case Stats => []
  }

  /** The array that send passes to json_encode. */
  function Envelope(name: string, params: PhpArray): Value
  {
    Arr([(StrKey("method"), Str(name)), (StrKey("params"), Arr(params))])
  }

  predicate IsStrEntry(p: PhpArray, i: nat, name: string)
  {
    i < |p| && p[i].0 == StrKey(name) && p[i].1.Str?
  }

  predicate IsArrEntry(p: PhpArray, i: nat, name: string)
  {
    i < |p| && p[i].0 == StrKey(name) && p[i].1.Arr?
  }

  /** A reader that recovers the command from the method `name` and the
      params, expecting exactly the keys the client writes, in that order. */
  function ParseCall(name: string, p: PhpArray): Option<Command>
  {
    if name == "publish" && |p| == 2 && IsStrEntry(p, 0, "channel") && IsArrEntry(p, 1, "data") then
      Some(Publish(p[0].1.s, p[1].1.entries))
    else if name == "broadcast" && |p| == 2 && IsArrEntry(p, 0, "channels") && IsArrEntry(p, 1, "data") then
      Some(Broadcast(p[0].1.entries, p[1].1.entries))
    else if name == "unsubscribe" && |p| == 2 && IsStrEntry(p, 0, "channel") && IsStrEntry(p, 1, "user") then
      Some(Unsubscribe(p[0].1.s, p[1].1.s))
    else if name == "disconnect" && |p| == 1 && IsStrEntry(p, 0, "user") then
      Some(Disconnect(p[0].1.s))
    else if name == "presence" && |p| == 1 && IsStrEntry(p, 0, "channel") then
      Some(Presence(p[0].1.s))
    else if name == "history" && |p| == 1 && IsStrEntry(p, 0, "channel") then
      Some(History(p[0].1.s))
    else if name == "channels" && p == [] then
      Some(Channels)
    else if name == "stats" && p == [] then
      Some(Stats)
    else
      None
  }

  /** The same reader applied to a whole {method, params} envelope. */
  function ParseEnvelope(v: Value): Option<Command>
  {
    if v.Arr? && |v.entries| == 2 && IsStrEntry(v.entries, 0, "method") && IsArrEntry(v.entries, 1, "params") then
      ParseCall(v.entries[0].1.s, v.entries[1].1.entries)
    else
      None
  }

  /** The envelope built for a command is read back as that command. */
  lemma EnvelopeRoundTrip(c: Command)
    ensures ParseEnvelope(Envelope(MethodName(c), Params(c))) == Some(c)
  {
  }

  lemma ParseCallExact(name: string, p: PhpArray, c: Command)
    requires ParseCall(name, p) == Some(c)
    ensures name == MethodName(c) && p == Params(c)
  {
  }

  /** Conversely, an envelope read as `c` is exactly the one the client
      builds for `c`: distinct commands never share an envelope. */
  lemma {:induction false} ParseEnvelopeExact(v: Value, c: Command)
    requires ParseEnvelope(v) == Some(c)
    ensures v == Envelope(MethodName(c), Params(c))
  {
    var e := v.entries;
    ParseCallExact(e[0].1.s, e[1].1.entries, c);
    assert e == [(e[0].0, e[0].1), (e[1].0, e[1].1)];
  }

  /** The fields posted for an encoded envelope: the data, and its signature
      under the given generator. */
  function SignedFields(php: Runtime, generator: HashGenerator.HashGenerator, data: string): seq<(string, string)>
  {
    [("data", data), ("sign", HashGenerator.Digest(php.hmac, generator.algo, generator.secret, [data]))]
  }

  /** The signature posted is the MAC, under the generator's algorithm and
      secret, of exactly the data posted beside it. */
  lemma SignedFieldsVerify(php: Runtime, generator: HashGenerator.HashGenerator, data: string)
    ensures var f := SignedFields(php, generator, data);
      |f| == 2 && f[0].0 == "data" && f[1].0 == "sign" &&
      f[1].1 == php.hmac(generator.algo, generator.secret, f[0].1)
  {
    HashGenerator.ConcatSingle(data);
  }

  class Client {
    const host: string
    const secret: string
    const transport: Transport.Transport
    const hashGenerator: HashGenerator.HashGenerator

    /** A client signs with the generator it is given, or else with a default
        one keyed by its own secret; it posts through the transport it is
        given, or else through a default one. */
    constructor (host: string, secret: string,
                 transport: Transport.Transport? := null,
                 hashGenerator: HashGenerator.HashGenerator? := null)
      ensures this.host == host && this.secret == secret
      ensures transport != null ==> this.transport == transport
      ensures transport == null ==>
        fresh(this.transport) && this.transport.calls == [] &&
        this.transport.cert == None && this.transport.caPath == None &&
        this.transport.connectTimeoutOption == None && this.transport.timeoutOption == None
      ensures hashGenerator != null ==> this.hashGenerator == hashGenerator
      ensures hashGenerator == null ==>
        fresh(this.hashGenerator) &&
        this.hashGenerator.secret == secret && this.hashGenerator.algo == HashGenerator.DefaultAlgo
    {
      this.host := host;
      this.secret := secret;
      if transport == null {
        this.transport := new Transport.Transport();
      } else {
        this.transport := transport;
      }
      if hashGenerator == null {
        this.hashGenerator := new HashGenerator.HashGenerator(secret);
      } else {
        this.hashGenerator := hashGenerator;
      }
    }

    /** What send does with method `name` and `params`, the transport's call
        log going from `before` to `after`: when the encoded envelope is falsy
        it raises the client exception and the transport is not called;
        otherwise the transport is called exactly once, with this client's host
        and the encoded string signed as it is, and its outcome is returned
        unchanged. */
    predicate Sends(php: Runtime, network: Transport.Exchange, name: string, params: PhpArray,
                    before: seq<Transport.TransportCall>, after: seq<Transport.TransportCall>,
                    r: Result<Value, Exception>)
    {
      var encoded := php.jsonEncode(Envelope(name, params));
      if Falsy(encoded) then
        after == before && r == Failure(ClientException(EncodingFailureMessage))
      else
        after == before + [Transport.TransportCall(host, SignedFields(php, hashGenerator, encoded.value))] &&
        r == Transport.Outcome(php.jsonDecode, network)
    }

    /** Sends any method with any params. */
    method Send(php: Runtime, network: Transport.Exchange, name: string, params: PhpArray := [])
      returns (r: Result<Value, Exception>)
      modifies transport`calls
      ensures Sends(php, network, name, params, old(transport.calls), transport.calls, r)
    {
      var data := php.jsonEncode(Envelope(name, params));
      if Falsy(data) {
        return Failure(ClientException(EncodingFailureMessage));
      }
      var sign := GenerateApiSign(php, data.value);
      var handle;
      handle, r := transport.Communicate(php, host, [("data", data.value), ("sign", sign)], network);
    }

    method Publish(php: Runtime, network: Transport.Exchange, channel: string, data: PhpArray := [])
      returns (r: Result<Value, Exception>)
      modifies transport`calls
      ensures Sends(php, network, MethodName(Command.Publish(channel, data)), Params(Command.Publish(channel, data)), old(transport.calls), transport.calls, r)
    {
      r := Send(php, network, "publish", [(StrKey("channel"), Str(channel)), (StrKey("data"), Arr(data))]);
    }

    method Broadcast(php: Runtime, network: Transport.Exchange, channels: PhpArray, data: PhpArray)
      returns (r: Result<Value, Exception>)
      modifies transport`calls
      ensures Sends(php, network, MethodName(Command.Broadcast(channels, data)), Params(Command.Broadcast(channels, data)), old(transport.calls), transport.calls, r)
    {
      r := Send(php, network, "broadcast", [(StrKey("channels"), Arr(channels)), (StrKey("data"), Arr(data))]);
    }

    method Unsubscribe(php: Runtime, network: Transport.Exchange, channel: string, userId: string)
      returns (r: Result<Value, Exception>)
      modifies transport`calls
      ensures Sends(php, network, MethodName(Command.Unsubscribe(channel, userId)), Params(Command.Unsubscribe(channel, userId)), old(transport.calls), transport.calls, r)
    {
      r := Send(php, network, "unsubscribe", [(StrKey("channel"), Str(channel)), (StrKey("user"), Str(userId))]);
    }

    method Disconnect(php: Runtime, network: Transport.Exchange, userId: string)
      returns (r: Result<Value, Exception>)
      modifies transport`calls
      ensures Sends(php, network, MethodName(Command.Disconnect(userId)), Params(Command.Disconnect(userId)), old(transport.calls), transport.calls, r)
    {
      r := Send(php, network, "disconnect", [(StrKey("user"), Str(userId))]);
    }

    method Presence(php: Runtime, network: Transport.Exchange, channel: string)
      returns (r: Result<Value, Exception>)
      modifies transport`calls
      ensures Sends(php, network, MethodName(Command.Presence(channel)), Params(Command.Presence(channel)), old(transport.calls), transport.calls, r)
    {
      r := Send(php, network, "presence", [(StrKey("channel"), Str(channel))]);
    }

    method History(php: Runtime, network: Transport.Exchange, channel: string)
      returns (r: Result<Value, Exception>)
      modifies transport`calls
      ensures Sends(php, network, MethodName(Command.History(channel)), Params(Command.History(channel)), old(transport.calls), transport.calls, r)
    {
      r := Send(php, network, "history", [(StrKey("channel"), Str(channel))]);
    }

    method Channels(php: Runtime, network: Transport.Exchange)
      returns (r: Result<Value, Exception>)
      modifies transport`calls
      ensures Sends(php, network, MethodName(Command.Channels), Params(Command.Channels), old(transport.calls), transport.calls, r)
    {
      r := Send(php, network, "channels", []);
    }

    method Stats(php: Runtime, network: Transport.Exchange)
      returns (r: Result<Value, Exception>)
      modifies transport`calls
      ensures Sends(php, network, MethodName(Command.Stats), Params(Command.Stats), old(transport.calls), transport.calls, r)
    {
      r := Send(php, network, "stats", []);
    }

    /** The API signature of `data`: the generator's MAC of exactly `data`. */
    method GenerateApiSign(php: Runtime, data: string) returns (sign: string)
      ensures sign == HashGenerator.Digest(php.hmac, hashGenerator.algo, hashGenerator.secret, [data])
      ensures sign == php.hmac(hashGenerator.algo, hashGenerator.secret, data)
    {
      sign := hashGenerator.Generate(php.hmac, [data]);
      HashGenerator.ConcatSingle(data);
    }

    /** The connection token: the MAC of user, timestamp and info, in that
        order, joined without separators. */
    method GenerateClientToken(php: Runtime, user: string, timestamp: string, info: string := "")
      returns (token: string)
      ensures token == HashGenerator.Digest(php.hmac, hashGenerator.algo, hashGenerator.secret, [user, timestamp, info])
      ensures token == php.hmac(hashGenerator.algo, hashGenerator.secret, user + timestamp + info)
    {
      token := hashGenerator.Generate(php.hmac, [user, timestamp, info]);
      HashGenerator.ConcatThree(user, timestamp, info);
    }

    /** The private-channel sign: the MAC of client, channel and info, in
        that order, joined without separators. */
    method GenerateChannelSign(php: Runtime, client: string, channel: string, info: string := "")
      returns (sign: string)
      ensures sign == HashGenerator.Digest(php.hmac, hashGenerator.algo, hashGenerator.secret, [client, channel, info])
      ensures sign == php.hmac(hashGenerator.algo, hashGenerator.secret, client + channel + info)
    {
      sign := hashGenerator.Generate(php.hmac, [client, channel, info]);
      HashGenerator.ConcatThree(client, channel, info);
    }
  }
}

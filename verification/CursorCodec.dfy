/** The signed pagination cursor: `kpc1.<payload>.<signature>`, both parts canonical base64url.
    The message authentication code and the JSON codecs are arbitrary functions carried by
    the codec value; `Lawful` says the little the proofs need of them. */
module CursorCodec {
  import opened Options
  import opened Base64Url
  import Text

  const TTL_NANOS: int := 300_000_000_000
  const NANOS_PER_MILLI: int := 1_000_000
  const MAX_TOKEN_BYTES: int := 16384
  const PREFIX := "kpc1"
  const VERSION: int := 1
  const MAC_BYTES: int := 32

  datatype Binding = Binding(queryHash: string, context: string, scope: string, generation: string)

  datatype Payload = Payload(version: int, expiresAt: int, binding: Binding, state: seq<Byte>)

  datatype Codec<!State> = Codec(
    mac: string -> seq<Byte>,
    writePayload: Payload -> seq<Byte>,
    readPayload: seq<Byte> -> Option<Payload>,
    canonicalState: State -> Option<seq<Byte>>,
    readState: seq<Byte> -> Option<State>)

  datatype Encoded = Token(token: string) | BadBinding | BadState | TooLarge

  datatype Verdict<+State> = Accepted(state: State) | Invalid | Expired | Mismatch

  predicate LowerHex(c: char) {
    '0' <= c <= '9' || 'a' <= c <= 'f'
  }

  predicate ValidBinding(b: Binding) {
    && |b.queryHash| == 2 * MAC_BYTES
    && (forall i :: 0 <= i < |b.queryHash| ==> LowerHex(b.queryHash[i]))
    && |b.context| <= 1024 && |b.scope| <= 1024
    && 0 < |b.generation| <= 256
  }

  /** What is assumed of the authentication code and of the JSON codecs. */
  ghost predicate Lawful<State(!new)>(c: Codec<State>) {
    && (forall s :: |c.mac(s)| == MAC_BYTES)
    && (forall p :: c.readPayload(c.writePayload(p)) == Some(p))
    && (forall s :: c.canonicalState(s).Some? ==>
          c.canonicalState(s).value != [] && c.readState(c.canonicalState(s).value) == Some(s))
  }

  /** Millisecond expiry stamped on a cursor made at time `now` (nanoseconds). */
  function ExpiryMillis(now: int): int {
    (now + TTL_NANOS) / NANOS_PER_MILLI
  }

  function Signed(payload: seq<Byte>): string {
    PREFIX + "." + Encode(payload)
  }

  function Render<State>(c: Codec<State>, payload: seq<Byte>): string {
    Signed(payload) + "." + Encode(c.mac(Signed(payload)))
  }

  function EncodeCursor<State>(c: Codec<State>, b: Binding, state: State, now: int): Encoded {
    if !ValidBinding(b) then BadBinding
    else
      match c.canonicalState(state)
      case None => BadState
      case Some(canonical) =>
        var token := Render(c, c.writePayload(Payload(VERSION, ExpiryMillis(now), b, canonical)));
        if |token| > MAX_TOKEN_BYTES then TooLarge else Token(token)
  }

  /** Everything `Decode` does up to and including the signature comparison. */
  function Authenticate<State>(c: Codec<State>, token: string): Decoded {
    if token == "" || |token| > MAX_TOKEN_BYTES then Corrupt
    else
      var parts := Text.Split(token, '.');
      if |parts| != 3 || parts[0] != PREFIX then Corrupt
      else
        var payload, signature := DecodeCanonical(parts[1]), DecodeCanonical(parts[2]);
        if payload.Corrupt? || signature.Corrupt? || |signature.bytes| != MAC_BYTES then Corrupt
        else if signature.bytes != c.mac(parts[0] + "." + parts[1]) then Corrupt
        else payload
  }

  function DecodeCursor<State>(c: Codec<State>, token: string, expected: Binding, now: int): Verdict<State> {
    if !ValidBinding(expected) then Invalid
    else
      match Authenticate(c, token)
      case Corrupt => Invalid
      case Bytes(raw) =>
        match c.readPayload(raw)
        case None => Invalid
        case Some(p) =>
          if p.version != VERSION || p.expiresAt <= 0 || !ValidBinding(p.binding) || p.state == [] then Invalid
          else if now >= p.expiresAt * NANOS_PER_MILLI then Expired
          else if p.binding != expected then Mismatch
          else
            match c.readState(p.state)
            case None => Invalid
            case Some(state) => Accepted(state)
  }

  /** The length of the encoded payload, four characters for three bytes. */
  function PayloadLength<State>(c: Codec<State>, b: Binding, state: State, now: int): int {
    match c.canonicalState(state)
    case None => 0
    case Some(canonical) =>
      (4 * |c.writePayload(Payload(1, (now + 300_000_000_000) / 1_000_000, b, canonical))| + 2) / 3
  }

  /** A cursor is made exactly when the binding is well formed, a hash of 64 lower case hexadecimal
      digits and texts of bounded length, the state has a canonical form, and the token, which is
      49 characters longer than its payload, does not exceed 16384. */
  lemma EncodeExactly<State>(c: Codec<State>, b: Binding, state: State, now: int)
    requires forall s :: |c.mac(s)| == MAC_BYTES
    ensures var bound :=
        && |b.queryHash| == 64 && |b.context| <= 1024 && |b.scope| <= 1024 && 0 < |b.generation| <= 256
        && forall i :: 0 <= i < 64 ==> '0' <= b.queryHash[i] <= '9' || 'a' <= b.queryHash[i] <= 'f';
      match EncodeCursor(c, b, state, now)
      case BadBinding => !bound
      case BadState => bound && c.canonicalState(state).None?
      case TooLarge => bound && c.canonicalState(state).Some? && 49 + PayloadLength(c, b, state, now) > 16384
      case Token(token) =>
        && bound && c.canonicalState(state).Some?
        && |token| == 49 + PayloadLength(c, b, state, now) && |token| <= 16384
  {
    if ValidBinding(b) && c.canonicalState(state).Some? {
      var payload := c.writePayload(Payload(VERSION, ExpiryMillis(now), b, c.canonicalState(state).value));
      EncodedLength(payload);
      EncodedLength(c.mac(Signed(payload)));
    }
  }

  /** The three part split of a rendered token is unambiguous: neither base64url part holds a dot. */
  lemma SplitRendered<State>(c: Codec<State>, payload: seq<Byte>)
    ensures Text.Split(Render(c, payload), '.')
         == [PREFIX, Encode(payload), Encode(c.mac(Signed(payload)))]
  {
    var mac := Encode(c.mac(Signed(payload)));
    var parts := [PREFIX, Encode(payload), mac];
    EncodedAlphabet(payload);
    EncodedAlphabet(c.mac(Signed(payload)));
    assert parts[1..][1..] == [mac];
    assert Text.Join(parts, '.') == PREFIX + ['.'] + (Encode(payload) + ['.'] + mac) by {
      assert Text.Join(parts[1..], '.') == Encode(payload) + ['.'] + mac;
    }
    assert Text.Join(parts, '.') == Render(c, payload);
    Text.SplitJoin(parts, '.');
  }

  /** Authentication accepts exactly the codec's own renderings within the size limit, and
      hands back the rendered payload: no second token carries the same payload. */
  lemma AuthenticExactly<State>(c: Codec<State>, token: string, payload: seq<Byte>)
    requires forall s :: |c.mac(s)| == MAC_BYTES
    ensures Authenticate(c, token) == Bytes(payload)
       <==> token == Render(c, payload) && |token| <= MAX_TOKEN_BYTES
  {
    if token == Render(c, payload) {
      SplitRendered(c, payload);
      CanonicalExactly(Encode(payload), payload);
      CanonicalExactly(Encode(c.mac(Signed(payload))), c.mac(Signed(payload)));
    }
    if Authenticate(c, token) == Bytes(payload) {
      var parts := Text.Split(token, '.');
      Text.JoinSplit(token, '.');
      CanonicalExactly(parts[1], payload);
      CanonicalExactly(parts[2], c.mac(parts[0] + "." + parts[1]));
      assert parts == [parts[0], parts[1], parts[2]];
      assert parts[1..][1..] == [parts[2]];
      assert Text.Join(parts[1..], '.') == parts[1] + ['.'] + parts[2];
      assert token == parts[0] + ['.'] + (parts[1] + ['.'] + parts[2]);
    }
  }

  /** The whole life of a cursor: what decoding an encoded cursor yields, for every moment
      and every expected binding. */
  lemma DecodeOfEncode<State(!new)>(c: Codec<State>, b: Binding, state: State, made: int, token: string,
                                    expected: Binding, now: int)
    requires Lawful(c)
    requires EncodeCursor(c, b, state, made) == Token(token)
    ensures DecodeCursor(c, token, expected, now) ==
      if !ValidBinding(expected) || ExpiryMillis(made) <= 0 then Invalid
      else if now >= ExpiryMillis(made) * NANOS_PER_MILLI then Expired
      else if expected != b then Mismatch
      else Accepted(state)
  {
    var p := Payload(VERSION, ExpiryMillis(made), b, c.canonicalState(state).value);
    AuthenticExactly(c, token, c.writePayload(p));
    assert c.readPayload(c.writePayload(p)) == Some(p);
  }

  /** Nothing but a signed payload gets past `Decode`, whatever bytes a client sends. */
  lemma ForgeriesAreInvalid<State(!new)>(c: Codec<State>, token: string, expected: Binding, now: int)
    requires Lawful(c)
    requires DecodeCursor(c, token, expected, now) != Invalid
    ensures exists payload :: token == Render(c, payload) && c.readPayload(payload).Some?
  {
    var payload := Authenticate(c, token).bytes;
    AuthenticExactly(c, token, payload);
    assert token == Render(c, payload) && c.readPayload(payload).Some?;
  }

  /** Rounding the expiry down to milliseconds costs a cursor less than one millisecond. */
  lemma LifetimeBounds(made: int, now: int)
    ensures now >= made + TTL_NANOS ==> now >= ExpiryMillis(made) * NANOS_PER_MILLI
    ensures now <= made + TTL_NANOS - NANOS_PER_MILLI ==> now < ExpiryMillis(made) * NANOS_PER_MILLI
  {
  }

  predicate TokenLive(signed: int, now: int) {
    now < ExpiryMillis(signed) * NANOS_PER_MILLI
  }

  predicate StateParked(parked: int, now: int) {
    now < parked + TTL_NANOS
  }

  /** The state of a list cursor is parked in the store first and the token is signed after it. As
      far as time goes, a live token finds its state exactly when the signing moment, rounded down,
      is not after the parking. */
  lemma TokenOutlivesParkedState(parked: int, signed: int)
    ensures (forall now :: TokenLive(signed, now) ==> StateParked(parked, now))
       <==> signed - signed % NANOS_PER_MILLI <= parked
  {
    var now := parked + TTL_NANOS;
    assert !StateParked(parked, now);
  }
}

/** The two MQTT 3.1.1 packets that publish the state, against readers written from the standard. */
module Mqtt {
  import opened Base

  type byte = b: int | 0 <= b < 256
  type Bytes = seq<byte>

  const LARGEST_LENGTH := 268435455

  // ---- The remaining length (section 2.2.3 of MQTT Version 3.1.1) ----

  /** Seven bits a byte, least significant first; the top bit says that more follow. */
  function LengthBytes(n: nat): Bytes {
    if n < 128 then [n] else [n % 128 + 128] + LengthBytes(n / 128)
  }

  method RemainingLength(n: nat) returns (out: Bytes)
    ensures out == LengthBytes(n)
  {
    out := [];
    var left := n;
    while true
      invariant out + LengthBytes(left) == LengthBytes(n)
      decreases left
    {
      var b := left % 128;
      left := left / 128;
      if left > 0 {
        b := b + 128;
      }
      out := out + [b];
      if left == 0 {
        return;
      }
    }
  }

  /** The reader: the value, and what follows it. */
  function ReadLength(s: Bytes): Option<(nat, Bytes)> {
    if s == [] then None
    else if s[0] < 128 then Some((s[0], s[1..]))
    else match ReadLength(s[1..])
      case Some((n, rest)) => Some((n * 128 + s[0] - 128, rest))
      case None => None
  }

  /** The standard allows four bytes. */
  function ReadFourByteLength(s: Bytes): Option<(nat, Bytes)> {
    match ReadLength(s)
    case Some((n, rest)) => if |s| - |rest| <= 4 then Some((n, rest)) else None
    case None => None
  }

  lemma {:induction false} LengthIsRead(n: nat, rest: Bytes)
    ensures ReadLength(LengthBytes(n) + rest) == Some((n, rest))
  {
    if n >= 128 {
      LengthIsRead(n / 128, rest);
      assert (LengthBytes(n) + rest)[1..] == LengthBytes(n / 128) + rest;
    } else {
      assert (LengthBytes(n) + rest)[1..] == rest;
    }
  }

  /** No encoding of a number is shorter. */
  lemma {:induction false} LengthIsMinimal(s: Bytes)
    requires ReadLength(s).Some?
    ensures var (n, rest) := ReadLength(s).value; |rest| < |s| && |LengthBytes(n)| <= |s| - |rest|
  {
    if s[0] >= 128 { LengthIsMinimal(s[1..]); }
  }

  /** An encoding that does not end in a needless zero group is the one that is written. */
  lemma {:induction false} LengthIsWritten(s: Bytes)
    requires ReadLength(s).Some?
    ensures var (n, rest) := ReadLength(s).value;
      |rest| < |s| && (s == LengthBytes(n) + rest <==> |s| - |rest| == 1 || s[|s| - |rest| - 1] != 0)
  {
    if s[0] >= 128 {
      LengthIsWritten(s[1..]);
      var (n, rest) := ReadLength(s[1..]).value;
      assert s == [s[0]] + s[1..];
      var last := |s| - |rest| - 1;
      assert s[last] == s[1..][last - 1];
      if n == 0 {
        ZeroIsOneByte(s[1..]);
        assert LengthBytes(0) == [0];
      } else {
        assert LengthBytes(n * 128 + s[0] - 128) == [s[0]] + LengthBytes(n);
        assert (LengthBytes(n * 128 + s[0] - 128) + rest)[1..] == LengthBytes(n) + rest;
        NonZeroEndsNonZero(s[1..]);
      }
    } else {
      assert s == [s[0]] + s[1..];
    }
  }

  lemma {:induction false} ZeroIsOneByte(s: Bytes)
    requires ReadLength(s).Some? && ReadLength(s).value.0 == 0
    ensures var rest := ReadLength(s).value.1; |rest| < |s| && s[|s| - |rest| - 1] == 0
  {
    if s[0] >= 128 { ZeroIsOneByte(s[1..]); }
  }

  lemma {:induction false} NonZeroEndsNonZero(s: Bytes)
    requires ReadLength(s).Some? && ReadLength(s).value.0 != 0
    ensures var rest := ReadLength(s).value.1; |rest| < |s| && (|s| - |rest| == 1 ==> s[|s| - |rest| - 1] != 0)
  {
    if s[0] >= 128 {
      if ReadLength(s[1..]).value.0 == 0 { ZeroIsOneByte(s[1..]); } else { NonZeroEndsNonZero(s[1..]); }
    }
  }

  /** Four bytes are enough exactly up to the largest length of the standard. */
  lemma FourBytesAreEnough(n: nat)
    ensures |LengthBytes(n)| <= 4 <==> n <= LARGEST_LENGTH
    ensures forall rest: Bytes :: ReadFourByteLength(LengthBytes(n) + rest) == if n <= LARGEST_LENGTH
      then Some((n, rest)) else None
  {
    assert n >= 128 ==> |LengthBytes(n)| == 1 + |LengthBytes(n / 128)|;
    assert n / 128 >= 128 ==> |LengthBytes(n / 128)| == 1 + |LengthBytes(n / 128 / 128)|;
    assert n / 128 / 128 >= 128 ==> |LengthBytes(n / 128 / 128)| == 1 + |LengthBytes(n / 128 / 128 / 128)|;
    forall rest: Bytes ensures ReadLength(LengthBytes(n) + rest) == Some((n, rest)) {
      LengthIsRead(n, rest);
    }
  }

  // ---- Strings (section 1.5.3) ----

  /** The length is written in sixteen bits; a longer string is written with a wrong one. */
  function StringBytes(s: Bytes): Bytes {
    [|s| % 65536 / 256, |s| % 256] + s
  }

  /** Two bytes, most significant first. */
  function Sixteen(high: byte, low: byte): nat {
    var h: nat := high;
    h * 256 + low
  }

  function ReadString(s: Bytes): Option<(Bytes, Bytes)> {
    if |s| < 2 then None
    else
      var n := Sixteen(s[0], s[1]);
      if |s| - 2 < n then None else Some((s[2..2 + n], s[2 + n..]))
  }

  /** A string comes back exactly when its length fits. */
  lemma StringIsRead(s: Bytes, rest: Bytes)
    ensures ReadString(StringBytes(s) + rest) == Some((s, rest)) <==> |s| < 65536
  {
    var all := StringBytes(s) + rest;
    var n := |s| % 65536;
    assert Sixteen(all[0], all[1]) == n;
    assert all[2..] == s + rest;
    assert all[2..2 + n] == (s + rest)[..n] && all[2 + n..] == (s + rest)[n..];
    assert |all[2..2 + n]| == n;
    if |s| < 65536 {
      assert (s + rest)[..n] == s && (s + rest)[n..] == rest;
    }
  }

  lemma ReadStringsAreShort(s: Bytes)
    ensures ReadString(s).Some? ==> |ReadString(s).value.0| < 65536
  {
  }

  // ---- CONNECT (section 3.1) ----

  const PROTOCOL: Bytes := [0x4d, 0x51, 0x54, 0x54]

  function ConnectFlags(user: Bytes, password: Bytes): byte {
    0x02 + (if user != [] then 0x80 else 0) + if user != [] && password != [] then 0x40 else 0
  }

  function ConnectPayload(client: Bytes, user: Bytes, password: Bytes): Bytes {
    StringBytes(client)
    + (if user != [] then StringBytes(user) else [])
    + if user != [] && password != [] then StringBytes(password) else []
  }

  function ConnectBody(client: Bytes, user: Bytes, password: Bytes): Bytes {
    StringBytes(PROTOCOL) + [0x04, ConnectFlags(user, password), 0x00, 0x1e] + ConnectPayload(client, user, password)
  }

  method ConnectPacket(client: Bytes, user: Bytes, password: Bytes) returns (packet: Bytes)
    ensures packet == Packet(0x10, ConnectBody(client, user, password))
  {
    var flags := 0x02;
    var payload := StringBytes(client);
    if user != [] {
      flags := flags + 0x80;
      payload := payload + StringBytes(user);
      if password != [] {
        flags := flags + 0x40;
        payload := payload + StringBytes(password);
      }
    }
    var body := StringBytes(PROTOCOL) + [0x04, flags, 0x00, 0x1e];
    body := body + payload;
    assert payload == ConnectPayload(client, user, password);
    var length := RemainingLength(|body|);
    packet := [0x10] + length + body;
  }

  function Packet(first: byte, body: Bytes): Bytes { [first] + LengthBytes(|body|) + body }

  /** The first byte of a packet and its body, when the remaining length is right. */
  function ReadPacket(s: Bytes): Option<(byte, Bytes)> {
    if s == [] then None
    else match ReadFourByteLength(s[1..])
      case Some((n, body)) => if |body| == n then Some((s[0], body)) else None
      case None => None
  }

  lemma PacketIsRead(first: byte, body: Bytes)
    ensures ReadPacket(Packet(first, body)) == if |body| <= LARGEST_LENGTH then Some((first, body)) else None
  {
    assert Packet(first, body)[1..] == LengthBytes(|body|) + body;
    FourBytesAreEnough(|body|);
  }

  datatype Will = Will(qos: nat, retain: bool, topic: Bytes, message: Bytes)

  datatype Connection = Connection(clean: bool, keepAlive: nat, client: Bytes, will: Option<Will>, user: Option<Bytes>,
    password: Option<Bytes>)

  predicate Bit(flags: byte, weight: nat)
    requires weight > 0
  {
    flags / weight % 2 == 1
  }

  function ReadOptional(present: bool, s: Bytes): Option<(Option<Bytes>, Bytes)> {
    if !present then Some((None, s))
    else match ReadString(s)
      case Some((x, rest)) => Some((Some(x), rest))
      case None => None
  }

  /** The reader of a server: the reserved bit is clear, a password comes with a user name, the will
      bits are clear without a will, and nothing follows the payload. */
  function ReadConnect(s: Bytes): Option<Connection> {
    match ReadPacket(s)
    case None => None
    case Some((first, body)) =>
      if first != 0x10 || |body| < 10 || body[..6] != StringBytes(PROTOCOL) || body[6] != 0x04 then None
      else
        var flags := body[7];
        var qos := flags / 8 % 4;
        if Bit(flags, 0x01) || (Bit(flags, 0x40) && !Bit(flags, 0x80)) || qos == 3
           || (!Bit(flags, 0x04) && (qos != 0 || Bit(flags, 0x20))) then None
        else ReadPayload(flags, Sixteen(body[8], body[9]), body[10..])
  }

  function ReadPayload(flags: byte, keepAlive: nat, s: Bytes): Option<Connection> {
    match ReadString(s)
    case None => None
    case Some((client, s1)) =>
      match ReadOptional(Bit(flags, 0x04), s1)
      case None => None
      case Some((topic, s2)) =>
        match ReadOptional(Bit(flags, 0x04), s2)
        case None => None
        case Some((message, s3)) =>
          match ReadOptional(Bit(flags, 0x80), s3)
          case None => None
          case Some((user, s4)) =>
            match ReadOptional(Bit(flags, 0x40), s4)
            case None => None
            case Some((password, s5)) =>
              if s5 != [] then None
              else
                var will := if topic.Some? && message.Some?
                  then Some(Will(flags / 8 % 4, Bit(flags, 0x20), topic.value, message.value)) else None;
                Some(Connection(Bit(flags, 0x02), keepAlive, client, will, user, password))
  }

  /** What the dispatcher means to say: a password without a user name is not sent. */
  function Meant(client: Bytes, user: Bytes, password: Bytes): Connection {
    Connection(true, 30, client, None,
               if user != [] then Some(user) else None,
               if user != [] && password != [] then Some(password) else None)
  }

  predicate Fits(s: Bytes) { |s| < 65536 }

  /** A server reads what was meant exactly when every string that is sent fits. */
  lemma ConnectIsUnderstood(client: Bytes, user: Bytes, password: Bytes)
    ensures ReadConnect(Packet(0x10, ConnectBody(client, user, password))) == Some(Meant(client, user, password))
      <==> Fits(client) && Fits(user) && (user != [] ==> Fits(password))
  {
    var body, flags := ConnectBody(client, user, password), ConnectFlags(user, password);
    PacketIsRead(0x10, body);
    assert |body| >= 10 && body[..6] == StringBytes(PROTOCOL) && body[6] == 0x04 && body[7] == flags && body[8] == 0
      && body[9] == 0x1e;
    assert body[10..] == ConnectPayload(client, user, password);
    FlagsAreRead(user, password);
    PayloadIsRead(flags, client, user, password);
  }

  lemma FlagsAreRead(user: Bytes, password: Bytes)
    ensures var flags := ConnectFlags(user, password);
      && Bit(flags, 0x02) && !Bit(flags, 0x01) && !Bit(flags, 0x04) && !Bit(flags, 0x20) && flags / 8 % 4 == 0
      && Bit(flags, 0x80) == (user != []) && Bit(flags, 0x40) == (user != [] && password != [])
  {
  }

  lemma PayloadIsRead(flags: byte, client: Bytes, user: Bytes, password: Bytes)
    requires Bit(flags, 0x02) && !Bit(flags, 0x04)
    requires Bit(flags, 0x80) == (user != []) && Bit(flags, 0x40) == (user != [] && password != [])
    ensures ReadPayload(flags, 30, ConnectPayload(client, user, password)) == Some(Meant(client, user, password))
      <==> Fits(client) && Fits(user) && (user != [] ==> Fits(password))
  {
    hide ReadString, StringBytes;
    var s3 := if user != [] && password != [] then StringBytes(password) else [];
    var s2 := (if user != [] then StringBytes(user) else []) + s3;
    var s1 := StringBytes(client) + s2;
    assert ConnectPayload(client, user, password) == s1;
    assert s3 + [] == s3;
    StringIsRead(client, s2);
    StringIsRead(user, s3);
    StringIsRead(password, []);
    ReadStringsAreShort(s1);
    ReadStringsAreShort(s2);
    ReadStringsAreShort(s3);
  }

  // ---- PUBLISH (section 3.3) ----

  function PublishBody(topic: Bytes, payload: Bytes): Bytes { StringBytes(topic) + payload }

  method PublishPacket(topic: Bytes, payload: Bytes) returns (packet: Bytes)
    ensures packet == Packet(0x31, PublishBody(topic, payload))
  {
    var body := StringBytes(topic) + payload;
    var length := RemainingLength(|body|);
    packet := [0x31] + length + body;
  }

  datatype Publication = Publication(duplicate: bool, qos: nat, retain: bool, topic: Bytes, packetId: Option<nat>,
    payload: Bytes)

  function ReadPublish(s: Bytes): Option<Publication> {
    match ReadPacket(s)
    case None => None
    case Some((first, body)) =>
      var qos := first / 2 % 4;
      if first / 16 != 3 || qos == 3 || (qos == 0 && Bit(first, 0x08)) then None
      else match ReadString(body)
        case None => None
        case Some((topic, rest)) =>
          if qos == 0 then Some(Publication(Bit(first, 0x08), 0, Bit(first, 0x01), topic, None, rest))
          else if |rest| < 2 then None
          else Some(Publication(Bit(first, 0x08), qos, Bit(first, 0x01), topic, Some(Sixteen(rest[0], rest[1])),
            rest[2..]))
  }

  /** A server reads a retained message at most once delivered, exactly when the topic and the packet fit. */
  lemma PublishIsUnderstood(topic: Bytes, payload: Bytes)
    ensures ReadPublish(Packet(0x31, PublishBody(topic, payload))) ==
      Some(Publication(false, 0, true, topic, None, payload))
      <==> Fits(topic) && 2 + |topic| + |payload| <= LARGEST_LENGTH
  {
    PacketIsRead(0x31, PublishBody(topic, payload));
    StringIsRead(topic, payload);
    ReadStringsAreShort(PublishBody(topic, payload));
  }
}

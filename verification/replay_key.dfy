/** The replay key of internal/mqttauth/mqttauth.go: five length-prefixed parts. */
module ReplayKeys {
  import opened Decimal

  /** What identifies one signed envelope. */
  datatype Envelope = Envelope(
    messageType: string,
    device: string,
    request: string,
    signedAt: int,
    signature: string)

  function Framed(part: string): string {
    Digits(|part|) + ":" + part + ";"
  }

  function Frames(parts: seq<string>): string {
    if parts == [] then "" else Framed(parts[0]) + Frames(parts[1..])
  }

  function Parts(e: Envelope): seq<string> {
    [e.messageType, e.device, e.request, Format(e.signedAt), e.signature]
  }

  function KeyOf(e: Envelope): string {
    Frames(Parts(e))
  }

  lemma {:induction false} FramesAppend(parts: seq<string>, part: string)
    ensures Frames(parts + [part]) == Frames(parts) + Framed(part)
  {
    if parts == [] {
      assert (parts + [part])[1..] == [];
    } else {
      assert (parts + [part])[1..] == parts[1..] + [part];
      FramesAppend(parts[1..], part);
    }
  }

  /** Builds the key part by part. */
  method ReplayKey(messageType: string, device: string, request: string, signedAt: int, signature: string)
    returns (key: string)
    ensures key == KeyOf(Envelope(messageType, device, request, signedAt, signature))
  {
    var parts := [messageType, device, request, Format(signedAt), signature];
    key := "";
    for i := 0 to |parts|
      invariant key == Frames(parts[..i])
    {
      key := key + Digits(|parts[i]|) + ":";
      key := key + parts[i];
      key := key + ";";
      assert parts[..i + 1] == parts[..i] + [parts[i]];
      FramesAppend(parts[..i], parts[i]);
    }
    assert parts[..|parts|] == parts;
  }

  lemma ColonIsPast(m: string, n: string, x: string, y: string)
    requires forall c | c in n :: IsDigit(c)
    requires m + ":" + x == n + ":" + y
    ensures |n| <= |m|
  {
    var whole := m + ":" + x;
    assert whole[|m|] == ':';
    forall i | 0 <= i < |n|
      ensures whole[i] != ':'
    {
      assert whole[i] == n[i] && n[i] in n;
    }
  }

  /** A length prefix is read back whatever follows it: digits end at the colon. */
  lemma {:induction false} LengthsAgree(m: string, n: string, x: string, y: string)
    requires forall c | c in m :: IsDigit(c)
    requires forall c | c in n :: IsDigit(c)
    requires m + ":" + x == n + ":" + y
    ensures m == n && x == y
  {
    ColonIsPast(m, n, x, y);
    ColonIsPast(n, m, y, x);
    assert (m + ":" + x)[..|m|] == m && (n + ":" + y)[..|n|] == n;
    assert (m + ":" + x)[|m| + 1..] == x && (n + ":" + y)[|n| + 1..] == y;
  }

  lemma FramedAgree(a: string, b: string, x: string, y: string)
    requires Framed(a) + x == Framed(b) + y
    ensures a == b && x == y
  {
    var a', b' := a + ";" + x, b + ";" + y;
    assert Digits(|a|) + ":" + a' == Framed(a) + x;
    assert Digits(|b|) + ":" + b' == Framed(b) + y;
    LengthsAgree(Digits(|a|), Digits(|b|), a', b');
    ValueOfDigits(|a|);
    ValueOfDigits(|b|);
    assert a'[..|a|] == a && b'[..|b|] == b;
    assert a'[|a| + 1..] == x && b'[|b| + 1..] == y;
  }

  lemma {:induction false} FramesInjective(ps: seq<string>, qs: seq<string>)
    requires |ps| == |qs| && Frames(ps) == Frames(qs)
    ensures ps == qs
  {
    if ps != [] {
      FramedAgree(ps[0], qs[0], Frames(ps[1..]), Frames(qs[1..]));
      FramesInjective(ps[1..], qs[1..]);
      assert ps == [ps[0]] + ps[1..] && qs == [qs[0]] + qs[1..];
    }
  }

  /** Two envelopes with one key agree in all five parts, whatever bytes they hold. */
  lemma KeyInjective(d: Envelope, e: Envelope)
    requires KeyOf(d) == KeyOf(e)
    ensures d == e
  {
    FramesInjective(Parts(d), Parts(e));
    assert forall i | 0 <= i < 5 :: Parts(d)[i] == Parts(e)[i];
    assert Parts(d)[0] == d.messageType && Parts(d)[1] == d.device && Parts(d)[2] == d.request
        && Parts(d)[4] == d.signature;
    assert Parts(e)[0] == e.messageType && Parts(e)[1] == e.device && Parts(e)[2] == e.request
        && Parts(e)[4] == e.signature;
    FormatInjective(d.signedAt, e.signedAt);
  }
}

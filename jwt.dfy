/** Session tokens: `jwt.sign({userId, email, role}, JWT_SECRET, {expiresIn: '7d'})` and
    `jwt.verify(token, JWT_SECRET)`.

    A token is the text of its payload, a '.', and the signature of that text. The payload
    carries the claims, the issue time `iat` and the expiry `exp` (seconds), as five fields
    separated by ',' in which '\', ',' and '.' are escaped; so the payload text contains no
    '.' and the first '.' of a token ends it. The keyed MAC (HMAC-SHA256 in jsonwebtoken)
    is a parameter `mac`. Verification follows jsonwebtoken: the token must parse, the
    signature must be the MAC of the payload text under the secret, and the token is expired
    once the current time reaches `exp`. */
module Jwt {
  import opened Js
  import opened Decimal

  /** `expiresIn: '7d'`, in seconds. */
  const ExpiresIn: nat := 7 * 24 * 60 * 60

  /** The claims login and register put in a token. */
  datatype Claims = Claims(userId: nat, email: string, role: string)

  datatype Payload = Payload(claims: Claims, iat: nat, exp: nat)

  /** Why `jwt.verify` throws: JsonWebTokenError (malformed, bad signature) or TokenExpiredError. */
  datatype JwtError = Malformed | InvalidSignature | Expired

  datatype Verification = Verified(claims: Claims) | Rejected(error: JwtError)

  /** HMAC of a message under a key, as text. */
  type Mac = (string, string) -> string

  // ---------------------------------------------------------------- field escaping

  function EscapeChar(c: char): (r: string)
    ensures ',' !in r && '.' !in r
  {
    if c == '\\' then "\\\\" else if c == ',' then "\\c" else if c == '.' then "\\d" else [c]
  }

  function Escape(s: string): (r: string)
    ensures ',' !in r && '.' !in r
  {
    if s == [] then [] else EscapeChar(s[0]) + Escape(s[1..])
  }

  function UnescapeCode(c: char): Option<char> {
    if c == '\\' then Some('\\') else if c == 'c' then Some(',') else if c == 'd' then Some('.') else None
  }

  /** Undoes `Escape`; an escape character followed by anything but a known code is refused. */
  function Unescape(s: string): Option<string> {
    if s == [] then Some([])
    else if s[0] != '\\' then
      match Unescape(s[1..])
      case None => None
      case Some(t) => Some([s[0]] + t)
    else if |s| < 2 || UnescapeCode(s[1]).None? then None
    else
      match Unescape(s[2..])
      case None => None
      case Some(t) => Some([UnescapeCode(s[1]).value] + t)
  }

  lemma {:induction false} UnescapeEscape(s: string)
    ensures Unescape(Escape(s)) == Some(s)
  {
    if s != [] {
      UnescapeEscape(s[1..]);
      var e := Escape(s);
      assert e == EscapeChar(s[0]) + Escape(s[1..]);
      if s[0] == '\\' || s[0] == ',' || s[0] == '.' {
        assert e[0] == '\\' && |e| >= 2 && UnescapeCode(e[1]) == Some(s[0]);
        assert e[2..] == Escape(s[1..]);
        assert s == [s[0]] + s[1..];
      } else {
        assert e[0] == s[0] && e[1..] == Escape(s[1..]);
        assert s == [s[0]] + s[1..];
      }
    }
  }

  // ---------------------------------------------------------------- fields

  /** The fields, separated by ','. */
  function Join(fields: seq<string>): string
    requires |fields| > 0
  {
    if |fields| == 1 then fields[0] else fields[0] + "," + Join(fields[1..])
  }

  /** Cuts a text at every ','. */
  function Split(s: string): (r: seq<string>)
    ensures |r| > 0
  {
    if s == [] then [[]]
    else
      var rest := Split(s[1..]);
      if s[0] == ',' then [[]] + rest else [[s[0]] + rest[0]] + rest[1..]
  }

  lemma {:induction false} SplitAfterField(f: string, t: string)
    requires ',' !in f
    ensures Split(f + t) == [f + Split(t)[0]] + Split(t)[1..]
  {
    if f == [] {
      assert f + t == t;
      var r := Split(t);
      assert [] + r[0] == r[0];
      assert r == [r[0]] + r[1..];
    } else {
      SplitAfterField(f[1..], t);
      assert (f + t)[1..] == f[1..] + t;
      assert [f[0]] + (f[1..] + Split(t)[0]) == f + Split(t)[0];
    }
  }

  lemma {:induction false} SplitJoin(fields: seq<string>)
    requires |fields| > 0
    requires forall i :: 0 <= i < |fields| ==> ',' !in fields[i]
    ensures Split(Join(fields)) == fields
  {
    if |fields| == 1 {
      SplitAfterField(fields[0], []);
      assert fields[0] + [] == fields[0];
    } else {
      SplitJoin(fields[1..]);
      var tail := "," + Join(fields[1..]);
      assert fields[0] + "," + Join(fields[1..]) == fields[0] + tail;
      SplitAfterField(fields[0], tail);
      assert tail[0] == ',' && tail[1..] == Join(fields[1..]);
      assert Split(tail) == [[]] + fields[1..];
      assert fields[0] + [] == fields[0];
    }
  }

  lemma {:induction false} JoinHasNoDot(fields: seq<string>)
    requires |fields| > 0
    requires forall i :: 0 <= i < |fields| ==> '.' !in fields[i]
    ensures '.' !in Join(fields)
  {
    if |fields| > 1 {
      JoinHasNoDot(fields[1..]);
    }
  }

  // ---------------------------------------------------------------- payload

  function PayloadFields(p: Payload): seq<string> {
    [Dec(p.claims.userId), Escape(p.claims.email), Escape(p.claims.role), Dec(p.iat), Dec(p.exp)]
  }

  function EncodePayload(p: Payload): (s: string)
    ensures '.' !in s
  {
    var fs := PayloadFields(p);
    assert forall i :: 0 <= i < |fs| ==> '.' !in fs[i] by {
      assert forall n: nat :: '.' !in Dec(n);
    }
    JoinHasNoDot(fs);
    Join(fs)
  }

  function DecodePayload(s: string): Option<Payload> {
    var fs := Split(s);
    if |fs| != 5 then None
    else
      match (ParseNat(fs[0]), Unescape(fs[1]), Unescape(fs[2]), ParseNat(fs[3]), ParseNat(fs[4]))
      case (Some(id), Some(email), Some(role), Some(iat), Some(exp)) =>
        Some(Payload(Claims(id, email, role), iat, exp))
      case _ => None
  }

  /** Every payload is read back exactly as it was written. */
  lemma PayloadRoundTrip(p: Payload)
    ensures DecodePayload(EncodePayload(p)) == Some(p)
  {
    var fs := PayloadFields(p);
    assert forall i :: 0 <= i < |fs| ==> ',' !in fs[i] by {
      assert forall n: nat :: ',' !in Dec(n);
    }
    SplitJoin(fs);
    DecRoundTrip(p.claims.userId);
    DecRoundTrip(p.iat);
    DecRoundTrip(p.exp);
    UnescapeEscape(p.claims.email);
    UnescapeEscape(p.claims.role);
  }

  // ---------------------------------------------------------------- tokens

  /** Index of the first `c` in `s`. */
  function IndexOf(s: string, c: char): (i: nat)
    requires c in s
    ensures i < |s| && s[i] == c && c !in s[..i]
  {
    if s[0] == c then 0 else 1 + IndexOf(s[1..], c)
  }

  /** The text before the first '.' (the signed payload) and after it (the signature). */
  function SignedPart(token: string): string
    requires '.' in token
  {
    token[..IndexOf(token, '.')]
  }

  function SignaturePart(token: string): string
    requires '.' in token
  {
    token[IndexOf(token, '.') + 1..]
  }

  /** `jwt.sign(claims, secret, {expiresIn: '7d'})` at time `now`. */
  function Sign(claims: Claims, now: nat, secret: string, mac: Mac): (t: string)
    ensures '.' in t
    ensures DecodePayload(SignedPart(t)) == Some(Payload(claims, now, now + ExpiresIn))
    ensures SignaturePart(t) == mac(secret, SignedPart(t))
  {
    var payload := EncodePayload(Payload(claims, now, now + ExpiresIn));
    SplitSigned(payload, mac(secret, payload));
    PayloadRoundTrip(Payload(claims, now, now + ExpiresIn));
    payload + "." + mac(secret, payload)
  }

  /** `jwt.verify(token, secret)` at time `now`. */
  function Verify(token: string, secret: string, now: nat, mac: Mac): (r: Verification)
    ensures '.' !in token ==> r == Rejected(Malformed)
    ensures r.Verified? ==>
              '.' in token && SignaturePart(token) == mac(secret, SignedPart(token)) &&
              DecodePayload(SignedPart(token)).Some? &&
              DecodePayload(SignedPart(token)).value.claims == r.claims &&
              now < DecodePayload(SignedPart(token)).value.exp
  {
    if '.' !in token then Rejected(Malformed)
    else
      var signed, signature := SignedPart(token), SignaturePart(token);
      match DecodePayload(signed)
      case None => Rejected(Malformed)
      case Some(p) =>
        if signature != mac(secret, signed) then Rejected(InvalidSignature)
        else if now >= p.exp then Rejected(Expired)
        else Verified(p.claims)
  }

  lemma {:induction false} IndexOfAfter(p: string, c: char, s: string)
    requires c !in p
    ensures c in p + [c] + s && IndexOf(p + [c] + s, c) == |p|
  {
    assert (p + [c] + s)[|p|] == c;
    if p != [] {
      IndexOfAfter(p[1..], c, s);
      assert (p + [c] + s)[1..] == p[1..] + [c] + s;
    }
  }

  lemma SplitSigned(payload: string, signature: string)
    requires '.' !in payload
    ensures '.' in payload + "." + signature
    ensures SignedPart(payload + "." + signature) == payload
    ensures SignaturePart(payload + "." + signature) == signature
  {
    var t := payload + "." + signature;
    IndexOfAfter(payload, '.', signature);
    assert t[..|payload|] == payload;
    assert t[|payload| + 1..] == signature;
  }

  /** A token verifies, under the key it was signed with, to the claims it was signed with,
      until seven days after issue; from then on it is expired. */
  lemma SignThenVerify(claims: Claims, iat: nat, now: nat, secret: string, mac: Mac)
    ensures Verify(Sign(claims, iat, secret, mac), secret, now, mac) ==
              if now < iat + ExpiresIn then Verified(claims) else Rejected(Expired)
  {
    var p := Payload(claims, iat, iat + ExpiresIn);
    var payload := EncodePayload(p);
    SplitSigned(payload, mac(secret, payload));
    PayloadRoundTrip(p);
  }

  /** A token whose signature part was changed is refused with a signature error. */
  lemma TamperedSignatureIsRejected(claims: Claims, iat: nat, now: nat, secret: string,
                                    mac: Mac, forged: string)
    requires forged != mac(secret, EncodePayload(Payload(claims, iat, iat + ExpiresIn)))
    ensures Verify(EncodePayload(Payload(claims, iat, iat + ExpiresIn)) + "." + forged, secret, now, mac) ==
              Rejected(InvalidSignature)
  {
    var p := Payload(claims, iat, iat + ExpiresIn);
    SplitSigned(EncodePayload(p), forged);
    PayloadRoundTrip(p);
  }

  /** A token signed under another key is refused, provided the two keys sign its
      payload differently. */
  lemma OtherKeyIsRejected(claims: Claims, iat: nat, now: nat, key: string, secret: string, mac: Mac)
    requires mac(key, EncodePayload(Payload(claims, iat, iat + ExpiresIn))) !=
             mac(secret, EncodePayload(Payload(claims, iat, iat + ExpiresIn)))
    ensures Verify(Sign(claims, iat, key, mac), secret, now, mac) == Rejected(InvalidSignature)
  {
    TamperedSignatureIsRejected(claims, iat, now, secret, mac,
      mac(key, EncodePayload(Payload(claims, iat, iat + ExpiresIn))));
  }
}

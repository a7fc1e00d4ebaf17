/**
 * The HTTP "Basic" credential of section 2 of RFC 7617: the user-id and the
 * password joined by a single colon, encoded as UTF-8 octets and then in
 * base 64 (section 4 of RFC 4648), after the scheme name and one space.
 * Every route builds it as `Basic ${Buffer.from(`${user}:${pass}`).toString('base64')}`.
 */
module BasicAuth {
  import opened Common
  import Utf8
  import Base64

  /** The token68 part: base 64 of the UTF-8 of `user:pass`. */
  function Token(user: string, pass: string): string {
    Base64.Encode(Utf8.Encode(user + ":" + pass))
  }

  /** The Authorization header value. */
  function Credentials(user: string, pass: string): (r: string)
    ensures |r| >= 6 && r[..6] == "Basic "
  {
    "Basic " + Token(user, pass)
  }

  /** Splits a user-pass at its first colon, as a server reading the credential does. */
  function SplitAtColon(s: string): (r: Option<(string, string)>)
    ensures r.Some? ==> ':' !in r.value.0 && s == r.value.0 + ":" + r.value.1
  {
    if s == [] then None
    else if s[0] == ':' then Some(([], s[1..]))
    else
      match SplitAtColon(s[1..])
      case None => None
      case Some((u, p)) => Some(([s[0]] + u, p))
  }

  /** Reads a credential back: scheme, base 64, UTF-8, first colon. */
  function Parse(header: string): Option<(string, string)> {
    if |header| < 6 || header[..6] != "Basic " then None
    else
      match Base64.Decode(header[6..])
      case None => None
      case Some(octets) =>
        match Utf8.Decode(octets)
        case None => None
        case Some(userPass) => SplitAtColon(userPass)
  }

  lemma {:induction false} SplitAtFirstColon(user: string, pass: string)
    requires ':' !in user
    ensures SplitAtColon(user + ":" + pass) == Some((user, pass))
  {
    if user != [] {
      assert (user + ":" + pass)[1..] == user[1..] + ":" + pass;
      SplitAtFirstColon(user[1..], pass);
      assert [user[0]] + user[1..] == user;
    }
  }

  /** The header carries the credentials: a user-id without a colon (which section 2
      of RFC 7617 forbids in one) and any password are recovered exactly. */
  lemma CredentialsRoundTrip(user: string, pass: string)
    requires ':' !in user
    ensures Parse(Credentials(user, pass)) == Some((user, pass))
  {
    var h := Credentials(user, pass);
    assert h[6..] == Token(user, pass);
    Base64.DecodeEncode(Utf8.Encode(user + ":" + pass));
    Utf8.DecodeEncode(user + ":" + pass);
    SplitAtFirstColon(user, pass);
  }

  /** Distinct colon-free user-ids, or distinct passwords, give distinct headers. */
  lemma CredentialsInjective(u1: string, p1: string, u2: string, p2: string)
    requires ':' !in u1 && ':' !in u2
    requires Credentials(u1, p1) == Credentials(u2, p2)
    ensures u1 == u2 && p1 == p2
  {
    CredentialsRoundTrip(u1, p1);
    CredentialsRoundTrip(u2, p2);
  }
}

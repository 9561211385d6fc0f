/**
 * ExtractBearerToken (baccarat/internal/auth/jwt.go): the token of an Authorization header of
 * the form "Bearer <token>". Go compares and slices the header by bytes; the scheme is seven
 * ASCII characters, so its bytes and its characters coincide.
 */
module Bearer {
  import Text

  const Scheme: string := "Bearer "

  /** Go's len(a + b) is the sum of the byte lengths. */
  lemma {:induction false} Utf8LenAppend(a: string, b: string)
    ensures Text.Utf8Len(a + b) == Text.Utf8Len(a) + Text.Utf8Len(b)
  {
    if a == [] {
      assert a + b == b;
    } else {
      assert (a + b)[0] == a[0];
      assert (a + b)[1..] == a[1..] + b;
      Utf8LenAppend(a[1..], b);
    }
  }

  /**
   * The text after "Bearer " when the header is longer than seven bytes and starts with it;
   * the empty string otherwise.
   */
  function ExtractBearerToken(header: string): (token: string)
    ensures token != [] <==> (|header| > |Scheme| && Text.HasPrefix(header, Scheme))
    ensures token != [] ==> header == Scheme + token
  {
    if Text.Utf8Len(header) > 7 && Text.HasPrefix(header, Scheme) then
      var rest := header[7..];
      assert header == Scheme + rest;
      Utf8LenAppend(Scheme, rest);
      Text.Utf8LenBounds(rest);
      assert Text.Utf8Len(Scheme) == 7;
      rest
    else
      (if Text.HasPrefix(header, Scheme) then
         assert header == Scheme + header[7..];
         Utf8LenAppend(Scheme, header[7..]);
         Text.Utf8LenBounds(header[7..]);
         []
       else [])
  }

  /** Every non-empty token survives being put behind the scheme and extracted again. */
  lemma RoundTrip(token: string)
    requires token != []
    ensures ExtractBearerToken(Scheme + token) == token
  {
    assert (Scheme + token)[..|Scheme|] == Scheme;
  }

  /** The bare scheme and a lower-case scheme give no token. */
  lemma NoTokenWithoutScheme(token: string)
    ensures ExtractBearerToken(Scheme) == []
    ensures ExtractBearerToken("bearer " + token) == []
  {
    assert ("bearer " + token)[0] == 'b';
  }
}

/**
 * The OAuth 2.0 client-credentials grant (section 4.4 of RFC 6749) as both
 * the token service and the client perform it: a form POST and the parsed
 * JSON reply.
 */
module ClientCredentials {
  import opened Wrappers
  import opened Text
  import opened Http

  const FormContentType: string := "application/x-www-form-urlencoded"

  /** The `expires_in` assumed when the reply carries none. */
  const DefaultExpiresIn: Int32 := 3600

  /**
   * The fields of the token reply's JSON object: `access_token` (a JSON
   * null reads as None) and `expires_in`.
   */
  datatype TokenJson = TokenJson(accessToken: Option<string>, expiresIn: Option<Int32>)

  /** The token endpoint's reply: status code and, for a 2xx reply, the parsed body. */
  datatype TokenReply = TokenReply(status: int, json: TokenJson)

  /**
   * The request body `grant_type=client_credentials&client_id=<id>&client_secret=<secret>`,
   * interpolated as it is: the id and the secret are not form-encoded.
   */
  function FormBody(clientId: string, clientSecret: string): string {
    "grant_type=client_credentials&client_id=" + clientId + "&client_secret=" + clientSecret
  }

  /** Read back as a form, the body holds exactly the grant type, the id and the secret, in that order. */
  lemma FormBodyFields(clientId: string, clientSecret: string)
    requires '&' !in clientId && '&' !in clientSecret
    ensures Split(FormBody(clientId, clientSecret), '&') ==
      ["grant_type=client_credentials", "client_id=" + clientId, "client_secret=" + clientSecret]
  {
    var fields := ["grant_type=client_credentials", "client_id=" + clientId, "client_secret=" + clientSecret];
    FormBodyIsJoin(clientId, clientSecret);
    assert forall i :: 0 <= i < 3 ==> '&' !in fields[i];
    SplitJoin(fields, '&');
  }

  /** The body is its three fields joined by `&`. */
  lemma FormBodyIsJoin(clientId: string, clientSecret: string)
    ensures FormBody(clientId, clientSecret) ==
      Join(["grant_type=client_credentials", "client_id=" + clientId, "client_secret=" + clientSecret], '&')
  {
    var g, i, s := "grant_type=client_credentials", "client_id=" + clientId, "client_secret=" + clientSecret;
    assert "grant_type=client_credentials&client_id=" == g + ['&'] + "client_id=";
    assert "&client_secret=" == ['&'] + "client_secret=";
    var x := g + ['&'];
    ConcatAssoc(x, "client_id=", clientId);
    var y := x + i;
    ConcatAssoc(y, ['&'] + "client_secret=", clientSecret);
    ConcatAssoc(['&'], "client_secret=", clientSecret);
    ConcatAssoc(y, ['&'], s);
    JoinThree(g, i, s, '&');
  }

  /** Because nothing is escaped, an `&` in the secret splits it into two form fields. */
  lemma FormBodySecretSplits(clientId: string, a: string, b: string)
    requires '&' !in clientId && '&' !in a && '&' !in b
    ensures Split(FormBody(clientId, a + "&" + b), '&') ==
      ["grant_type=client_credentials", "client_id=" + clientId, "client_secret=" + a, b]
  {
    var g, i := "grant_type=client_credentials", "client_id=" + clientId;
    var s, s' := "client_secret=" + a, "client_secret=" + (a + "&" + b);
    FormBodyIsJoin(clientId, a + "&" + b);
    JoinThree(g, i, s', '&');
    assert s' == s + ['&'] + b;
    var rest := i + ['&'] + (s + ['&'] + b);
    assert FormBody(clientId, a + "&" + b) == g + ['&'] + rest;
    assert '&' !in s;
    SplitAtFirstSeparator(g, '&', rest);
    SplitAtFirstSeparator(i, '&', s + ['&'] + b);
    SplitAtFirstSeparator(s, '&', b);
    SplitWithoutSeparator(b, '&');
  }

  /** For instance the secret `a&b` yields four fields. */
  lemma FormBodyNotEscaped()
    ensures |Split(FormBody("id", "a&b"), '&')| == 4
  {
    assert "a&b" == "a" + "&" + "b";
    FormBodySecretSplits("id", "a", "b");
  }

  /** The POST a client-credentials exchange sends. */
  function TokenPost(tokenUrl: string, clientId: string, clientSecret: string): HttpPost {
    HttpPost(tokenUrl, FormBody(clientId, clientSecret), FormContentType)
  }

  /** `expires_in`, or 3600 when the reply has none. */
  function ExpiresIn(json: TokenJson): (e: Int32)
    ensures json.expiresIn.None? ==> e == DefaultExpiresIn
    ensures json.expiresIn.Some? ==> e == json.expiresIn.value
  {
    if json.expiresIn.Some? then json.expiresIn.value else DefaultExpiresIn
  }
}

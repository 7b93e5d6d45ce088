/** The plain data types of the `Model` folder. */
module Model {
  import opened Wrappers
  import opened Text

  /** The token endpoint `OAuthConfig.TokenUrl` defaults to. */
  const DefaultTokenUrl: string := "https://accounts.spotify.com/api/token"

  /** `OAuthConfig`: the configured client credentials and token endpoint. */
  datatype OAuthConfig = OAuthConfig(clientId: string, clientSecret: string, tokenUrl: string)

  /** `TokenRequest`: the body of `POST /api/v1/token`; JSON `null` leaves a field null. */
  datatype TokenRequest = TokenRequest(clientId: Option<string>, clientSecret: Option<string>)

  /** `TokenResult`: the body the token endpoint of this proxy answers with. */
  datatype TokenResult = TokenResult(accessToken: Option<string>, tokenType: Option<string>, expiresIn: Option<Int32>)
}

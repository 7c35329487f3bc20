/** The mixi OAuth2 service: its endpoints, its default base API URI and the
    parsing of the token endpoint's JSON response into a token. */
module MixiService {
  import opened Php
  import opened Exceptions
  import opened Json

  const DefaultBaseApiUri := "https://api.mixi-platform.com/2/"
  const AuthorizationEndpoint := "https://mixi.jp/connect_authorize.pl"
  const AccessTokenEndpoint := "https://secure.mixi-platform.com/2/token"

  const UnparsableMessage := "Unable to parse response."
  const ErrorMessagePrefix := "Error in retrieving token: \""

  /** The token as the parser fills it in: what it passes to the token's
      setters. `lifetime` is the argument of `setLifeTime` (the token turns
      it into an end-of-life time); `refreshToken` is None when
      `setRefreshToken` is never called. */
  datatype Token = Token(
    accessToken: Json,
    lifetime: Json,
    refreshToken: Option<Json>,
    extraParams: map<string, Json>)

  /** A fresh token, before any setter is called. */
  const EmptyToken := Token(JNull, JNull, None, map[])

  /** `isset($data->k)`: the property exists and is not null. */
  predicate IsSet(data: map<string, Json>, k: string) {
    k in data && data[k] != JNull
  }

  /** `$data->k`: the property's value, or null when it does not exist. */
  function Property(data: map<string, Json>, k: string): Json {
    if k in data then data[k] else JNull
  }

  /** The properties the parser consumes: `access_token`, `expires_in` and,
      only when it is set, `refresh_token`. */
  function ConsumedKeys(data: map<string, Json>): set<string> {
    {"access_token", "expires_in"} + (if IsSet(data, "refresh_token") then {"refresh_token"} else {})
  }

  /** A JSON value converted to a string by PHP's `.` operator: strings as
      they are, true as "1", false and null as "", integers in decimal,
      arrays as "Array"; an object cannot be converted and raises an error. */
  function StringValue(v: Json): (r: Result<string>)
    ensures r.Err? <==> v.JObject?
    ensures v.JString? ==> r == Ok(v.s)
  {
    match v
    case JNull => Ok("")
    case JBool(b) => Ok(if b then "1" else "")
    case JInt(i) => Ok(IntToDecimal(i))
    case JString(s) => Ok(s)
    case JArray(_) => Ok("Array")
    case JObject(_) => Err(StringConversion("Object of class stdClass could not be converted to string"))
  }

  class Mixi {
    var baseApiUri: string

    /** Without a base API URI the service uses mixi's; a given one is kept. */
    constructor (baseApiUri: Option<string>)
      ensures baseApiUri.None? ==> this.baseApiUri == DefaultBaseApiUri
      ensures baseApiUri.Some? ==> this.baseApiUri == baseApiUri.value
    {
      if baseApiUri.None? {
        this.baseApiUri := DefaultBaseApiUri;
      } else {
        this.baseApiUri := baseApiUri.value;
      }
    }

    function GetAuthorizationEndpoint(): string {
      AuthorizationEndpoint
    }

    function GetAccessTokenEndpoint(): string {
      AccessTokenEndpoint
    }

    /** `parseAccessTokenResponse`, given what `json_decode` made of the
        response body (JNull for a body that is not valid JSON). */
    method ParseAccessTokenResponse(decoded: Json) returns (r: Result<Token>)
      ensures !decoded.JObject? ==> r == Err(TokenResponse(UnparsableMessage))
      ensures decoded.JObject? && IsSet(decoded.fields, "error") ==>
        var text := StringValue(decoded.fields["error"]);
        && r.Err?
        && (text.Ok? ==> r.error == TokenResponse(ErrorMessagePrefix + text.value + "\""))
        && (text.Err? ==> r.error == text.error)
      ensures r.Ok? <==> decoded.JObject? && !IsSet(decoded.fields, "error")
      ensures r.Ok? ==>
        var data, token := decoded.fields, r.value;
        && token.accessToken == Property(data, "access_token")
        && token.lifetime == Property(data, "expires_in")
        && token.refreshToken == (if IsSet(data, "refresh_token") then Some(data["refresh_token"]) else None)
        && token.extraParams == data - ConsumedKeys(data)
        && "access_token" !in token.extraParams
        && "expires_in" !in token.extraParams
        && (IsSet(data, "refresh_token") ==> "refresh_token" !in token.extraParams)
        && (forall k :: k in data && k !in ConsumedKeys(data) ==> k in token.extraParams && token.extraParams[k] == data[k])
    {
      if decoded.JNull? || !decoded.JObject? {
        return Err(TokenResponse(UnparsableMessage));
      }
      var data := decoded.fields;
      if IsSet(data, "error") {
        var text := StringValue(data["error"]);
        if text.Err? {
          return Err(text.error);
        }
        return Err(TokenResponse(ErrorMessagePrefix + text.value + "\""));
      }

      var token := EmptyToken;
      token := token.(accessToken := Property(data, "access_token"));
      token := token.(lifetime := Property(data, "expires_in"));

      if IsSet(data, "refresh_token") {
        token := token.(refreshToken := Some(data["refresh_token"]));
        data := data - {"refresh_token"};
      }

      data := data - {"access_token"};
      data := data - {"expires_in"};

      token := token.(extraParams := data);
      return Ok(token);
    }
  }

  /** The pass-through rule on a typical response: of
      {"access_token":"abc","expires_in":3600,"refresh_token":"r1","uid":"42"}
      only "uid" is left for the extra params. */
  lemma ConsumedKeysExample()
    ensures var data := map["access_token" := JString("abc"), "expires_in" := JInt(3600),
                            "refresh_token" := JString("r1"), "uid" := JString("42")];
      data - ConsumedKeys(data) == map["uid" := JString("42")]
  {
  }

  /** A null-valued property other than `access_token` and `expires_in` is
      never consumed: a null `refresh_token` or a null `error` reaches the
      extra params as null. */
  lemma NullPropertiesKept(data: map<string, Json>, k: string)
    requires k in data && data[k] == JNull && k != "access_token" && k != "expires_in"
    ensures k in data - ConsumedKeys(data) && (data - ConsumedKeys(data))[k] == JNull
  {
  }

  /** The endpoints do not depend on the service's state. */
  lemma EndpointsAreFixed(service: Mixi)
    ensures service.GetAuthorizationEndpoint() == "https://mixi.jp/connect_authorize.pl"
    ensures service.GetAccessTokenEndpoint() == "https://secure.mixi-platform.com/2/token"
  {
  }
}

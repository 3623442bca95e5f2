/**
 * The token status page of the Entra token module: whether each token is
 * available, and for an access token in three segments the details: its
 * scopes, its expiry classified as expired, expiring soon or valid, and
 * whether its audience is the SuiteCRM API. Messages go to the messenger.
 *
 * The tokens are the values the token service's getters return; the time
 * until expiry is an operation outside this model and comes in as
 * `timeUntil`; `OPENID_CLIENT_ID` from the environment is `clientId`.
 */
module EntraTokenStatus {
  import opened Common
  import opened EntraTokens

  /** How the page describes the expiry of the access token. */
  datatype ExpiryStatus = Expired | Expiring(minutes: int) | Valid(minutes: int)

  /** One entry of the details list, in the order the page shows them. */
  datatype DetailLine = Scopes(scp: string) | Expires(exp: int) | StatusLine(status: ExpiryStatus) | Audience(correct: bool)

  /** A messenger message. */
  datatype Message =
    | TokenExpiredError
    | TokenExpiringWarning(minutes: int)
    | AudienceMismatchError(expected: string, actual: string)
    | NoTokensWarning

  datatype StatusPage = StatusPage(jwtAvailable: bool, accessAvailable: bool, details: Option<seq<DetailLine>>, note: bool)

  const SoonWindow := 300

  /**
   * The three-way classification. An unknown time counts as expired, as
   * PHP's `null <= 0` holds; the minutes shown are `floor(t / 60)`.
   */
  function Classify(timeUntil: Option<int>): (s: ExpiryStatus)
    ensures s.Expired? <==> timeUntil.None? || timeUntil.value <= 0
    ensures s.Expiring? <==> timeUntil.Some? && 0 < timeUntil.value < SoonWindow
    ensures s.Valid? <==> timeUntil.Some? && timeUntil.value >= SoonWindow
    ensures !s.Expired? ==> s.minutes * 60 <= timeUntil.value < s.minutes * 60 + 60
  {
    match timeUntil
    case None => Expired
    case Some(t) =>
      if t <= 0 then Expired
      else if t < SoonWindow then Expiring(t / 60)
      else Valid(t / 60)
  }

  /** `$payload['scp'] ?? 'N/A'`. */
  function ScopeText(payload: Option<Payload>): string {
    if payload.Some? && payload.value.scp.Some? then payload.value.scp.value else "N/A"
  }

  /** `'api://' . getenv('OPENID_CLIENT_ID')`; an unset variable adds nothing. */
  function ExpectedAudience(clientId: Option<string>): string {
    "api://" + clientId.GetOr("")
  }

  /** The audience check: `aud` is set and is exactly the expected audience. */
  predicate AudienceMatches(payload: Option<Payload>, clientId: Option<string>) {
    payload.Some? && payload.value.aud == Some(ExpectedAudience(clientId))
  }

  /** `$payload['aud'] ?? 'N/A'`. */
  function AudienceText(payload: Option<Payload>): string {
    if payload.Some? && payload.value.aud.Some? then payload.value.aud.value else "N/A"
  }

  /** The expiry messages for a classification. */
  function ExpiryMessages(s: ExpiryStatus): seq<Message> {
    match s
    case Expired => [TokenExpiredError]
    case Expiring(m) => [TokenExpiringWarning(m)]
    case Valid(_) => []
  }

  /** The access token splits into three segments, so the details are shown. */
  predicate ShowsDetails(access: Option<string>) {
    !FalsyOpt(access) && |Split(access.value, '.')| == 3
  }

  /** `status`: the page and the messenger messages, built in the order of the source. */
  method Status(jwt: Option<string>, access: Option<string>, decode: Decoder, timeUntil: Option<int>,
                clientId: Option<string>) returns (page: StatusPage, messages: seq<Message>)
    ensures page.jwtAvailable <==> !FalsyOpt(jwt)
    ensures page.accessAvailable <==> !FalsyOpt(access)
    ensures page.details.Some? <==> ShowsDetails(access)
    ensures page.note <==> FalsyOpt(jwt) && FalsyOpt(access)
    ensures ShowsDetails(access) ==>
              var payload := decode(UrlSafeToStandard(Split(access.value, '.')[1]));
              var hasExp := payload.Some? && payload.value.exp.Some?;
              && page.details.value
                 == [Scopes(ScopeText(payload))]
                    + (if hasExp then [Expires(payload.value.exp.value), StatusLine(Classify(timeUntil))] else [])
                    + [Audience(AudienceMatches(payload, clientId))]
              && messages
                 == (if hasExp then ExpiryMessages(Classify(timeUntil)) else [])
                    + (if AudienceMatches(payload, clientId) then []
                       else [AudienceMismatchError(ExpectedAudience(clientId), AudienceText(payload))])
    ensures !ShowsDetails(access) ==> messages == if page.note then [NoTokensWarning] else []
    ensures !(page.note && page.details.Some?)
    ensures NoTokensWarning in messages <==> page.note
    ensures page.note ==> messages == [NoTokensWarning]
  {
    messages := [];
    var details: Option<seq<DetailLine>> := None;
    if !FalsyOpt(access) {
      var parts := Split(access.value, '.');
      if |parts| == 3 {
        var payload := decode(UrlSafeToStandard(parts[1]));
        var lines := [Scopes(ScopeText(payload))];
        if payload.Some? && payload.value.exp.Some? {
          var status := Classify(timeUntil);
          if status.Expired? {
            messages := messages + [TokenExpiredError];
          } else if status.Expiring? {
            messages := messages + [TokenExpiringWarning(status.minutes)];
          }
          lines := lines + [Expires(payload.value.exp.value), StatusLine(status)];
        }
        if AudienceMatches(payload, clientId) {
          lines := lines + [Audience(true)];
        } else {
          lines := lines + [Audience(false)];
          messages := messages + [AudienceMismatchError(ExpectedAudience(clientId), AudienceText(payload))];
        }
        details := Some(lines);
      }
    }
    var note := false;
    if FalsyOpt(jwt) && FalsyOpt(access) {
      messages := messages + [NoTokensWarning];
      note := true;
    }
    page := StatusPage(!FalsyOpt(jwt), !FalsyOpt(access), details, note);
  }

  /** The audience is correct only for the exact string `api://` followed by the client id. */
  lemma AudienceExact(payload: Option<Payload>, clientId: Option<string>)
    ensures AudienceMatches(payload, clientId)
            <==> payload.Some? && payload.value.aud.Some?
                 && |payload.value.aud.value| >= 6 && payload.value.aud.value[..6] == "api://"
                 && payload.value.aud.value[6..] == clientId.GetOr("")
  {
    if payload.Some? && payload.value.aud.Some? {
      var a := payload.value.aud.value;
      if |a| >= 6 && a[..6] == "api://" && a[6..] == clientId.GetOr("") {
        assert a == a[..6] + a[6..];
      }
    }
  }

  /** A token the service would call expiring soon is never shown as valid, when both see the same time. */
  lemma ExpiringNotValid(token: string, now: int, decode: Decoder)
    requires ExpiringSoon(token, now, decode)
    ensures var exp := TokenPayload(token, decode).value.exp.value;
            !Classify(Some(exp - now)).Valid?
  {
  }
}

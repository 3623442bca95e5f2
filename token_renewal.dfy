/**
 * The per-request renewal decision of the Entra token module: on every main
 * request of an authenticated user who holds an access token, the token is
 * renewed once when it expires within the configured threshold or has
 * already expired.
 *
 * The time until expiry and the success of a renewal come from token-service
 * operations outside this model; they are the parameters `timeUntilExpiry`
 * and `renewed`. The result says how often renewal is asked for and what is
 * logged.
 */
module EntraTokenRenewal {
  import opened Common

  /** The `entra_jwt_token.settings` values the subscriber reads; unset values are `None`. */
  datatype Settings = Settings(enableAutoRenewal: Option<bool>, renewalThreshold: Option<int>, logRenewals: bool)

  /** The log lines the subscriber writes. */
  datatype Event = ExpiringSoonNotice(seconds: int) | RenewedNotice | ExpiredNotice

  /** How many times `renewToken` is called, and what is logged. */
  datatype Outcome = Outcome(renewals: nat, log: seq<Event>)

  const DefaultThresholdMinutes := 10

  /** The threshold in seconds: the configured minutes, 10 when unset, times 60. */
  function ThresholdSeconds(settings: Settings): int {
    settings.renewalThreshold.GetOr(DefaultThresholdMinutes) * 60
  }

  /** The guards before the expiry check all pass. */
  predicate Active(mainRequest: bool, settings: Settings, authenticated: bool, accessToken: Option<string>) {
    mainRequest && settings.enableAutoRenewal.GetOr(true) && authenticated && !FalsyOpt(accessToken)
  }

  /** `onRequest`. */
  function OnRequest(mainRequest: bool, settings: Settings, authenticated: bool, accessToken: Option<string>,
                     timeUntilExpiry: Option<int>, renewed: bool): (o: Outcome)
    ensures o.renewals <= 1
    ensures !Active(mainRequest, settings, authenticated, accessToken) ==> o == Outcome(0, [])
  {
    if !mainRequest then Outcome(0, [])
    else if !settings.enableAutoRenewal.GetOr(true) then Outcome(0, [])
    else if !authenticated then Outcome(0, [])
    else if FalsyOpt(accessToken) then Outcome(0, [])
    else
      var limit := ThresholdSeconds(settings);
      match timeUntilExpiry
      case None => Outcome(0, [])
      case Some(t) =>
        if t < limit && t > 0 then
          Outcome(1, [ExpiringSoonNotice(t)] + if renewed && settings.logRenewals then [RenewedNotice] else [])
        else if t <= 0 then Outcome(1, [ExpiredNotice])
        else Outcome(0, [])
  }

  /**
   * Renewal is asked for exactly once when the guards pass and the time to
   * expiry is known and either at most 0 or below the threshold; otherwise
   * never.
   */
  lemma RenewIff(mainRequest: bool, settings: Settings, authenticated: bool, accessToken: Option<string>,
                 timeUntilExpiry: Option<int>, renewed: bool)
    ensures var o := OnRequest(mainRequest, settings, authenticated, accessToken, timeUntilExpiry, renewed);
            o.renewals == (if Active(mainRequest, settings, authenticated, accessToken)
                              && timeUntilExpiry.Some?
                              && (timeUntilExpiry.value <= 0 || timeUntilExpiry.value < ThresholdSeconds(settings))
                           then 1 else 0)
  {
  }

  /** An unknown time to expiry, or one at or beyond the threshold, never triggers renewal. */
  lemma NoRenewalOutsideWindow(mainRequest: bool, settings: Settings, authenticated: bool, accessToken: Option<string>,
                               timeUntilExpiry: Option<int>, renewed: bool)
    requires timeUntilExpiry.None? || (timeUntilExpiry.value > 0 && timeUntilExpiry.value >= ThresholdSeconds(settings))
    ensures OnRequest(mainRequest, settings, authenticated, accessToken, timeUntilExpiry, renewed) == Outcome(0, [])
  {
  }

  /** An expired token is renewed whatever the threshold, and a warning is logged. */
  lemma ExpiredRenewed(settings: Settings, accessToken: Option<string>, t: int, renewed: bool)
    requires settings.enableAutoRenewal.GetOr(true) && !FalsyOpt(accessToken)
    requires t <= 0
    ensures OnRequest(true, settings, true, accessToken, Some(t), renewed) == Outcome(1, [ExpiredNotice])
  {
  }

  /** The success line is logged exactly when renewal of a not yet expired token returned true and logging is on. */
  lemma SuccessLoggedIff(mainRequest: bool, settings: Settings, authenticated: bool, accessToken: Option<string>,
                         timeUntilExpiry: Option<int>, renewed: bool)
    ensures var o := OnRequest(mainRequest, settings, authenticated, accessToken, timeUntilExpiry, renewed);
            RenewedNotice in o.log
            <==> o.renewals == 1 && timeUntilExpiry.value > 0 && renewed && settings.logRenewals
  {
  }

  /** Unset settings: renewal is on and the threshold is ten minutes. */
  lemma DefaultSettings(accessToken: Option<string>, t: int, renewed: bool)
    requires !FalsyOpt(accessToken)
    ensures var s := Settings(None, None, false);
            OnRequest(true, s, true, accessToken, Some(t), renewed).renewals == if t < 600 then 1 else 0
  {
  }
}

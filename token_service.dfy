/**
 * The Entra token service: it keeps the ID token ("JWT token") and the
 * access token of the signed-in user in two places, the user's session and
 * the private temp store, reads them back session first, and checks whether
 * a token's `exp` claim falls within the next 300 seconds.
 *
 * Decoding a JWT payload (base64 then JSON) is the function parameter
 * `decode`; it receives the payload segment after the URL-safe alphabet has
 * been mapped back to the standard one. The current time is the parameter
 * `now`. Log lines are a ghost list of events.
 */
module EntraTokens {
  import opened Common

  /** The claims of a decoded JWT payload that the module reads. */
  datatype Payload = Payload(exp: Option<int>, aud: Option<string>, scp: Option<string>)

  /** Decoding of a standard-alphabet base64 payload segment; `None` when it is not a JSON object. */
  type Decoder = string -> Option<Payload>

  /** The two kinds of token the service keeps. */
  datatype Kind = Jwt | Access

  /** The session slot of a kind of token. */
  function SessionKey(kind: Kind): string {
    match kind
    case Jwt => "entra_jwt_token"
    case Access => "entra_access_token"
  }

  /** The temp-store slot of a kind of token. */
  function TempKey(kind: Kind): string {
    match kind
    case Jwt => "jwt_token"
    case Access => "access_token"
  }

  /** The two kinds never share a slot. */
  lemma SlotsDistinct()
    ensures SessionKey(Jwt) != SessionKey(Access) && TempKey(Jwt) != TempKey(Access)
  {
    assert SessionKey(Jwt)[7] != SessionKey(Access)[7];
    assert TempKey(Jwt)[0] != TempKey(Access)[0];
  }

  // ---------------------------------------------------------------------------
  // Expiry check
  // ---------------------------------------------------------------------------

  /** The window, in seconds, in which a token counts as expiring soon. */
  const ExpiryWindow := 300

  /** `strtr($segment, '-_', '+/')`: the URL-safe base64 alphabet mapped to the standard one. */
  function UrlSafeToStandard(segment: string): (r: string)
    ensures |r| == |segment|
    ensures forall i :: 0 <= i < |segment| ==>
              r[i] == (if segment[i] == '-' then '+' else if segment[i] == '_' then '/' else segment[i])
    ensures '-' !in r && '_' !in r
  {
    ReplaceChar(ReplaceChar(segment, '-', '+'), '_', '/')
  }

  /** The payload of a token that splits into exactly three `.`-separated segments. */
  function TokenPayload(token: string, decode: Decoder): Option<Payload> {
    var parts := Split(token, '.');
    if |parts| == 3 then decode(UrlSafeToStandard(parts[1])) else None
  }

  /** `isTokenExpiringSoon`: the payload has `exp` and it is less than 300 seconds away. */
  predicate ExpiringSoon(token: string, now: int, decode: Decoder) {
    var p := TokenPayload(token, decode);
    p.Some? && p.value.exp.Some? && p.value.exp.value - now < ExpiryWindow
  }

  /** A token that does not split into three segments is never reported as expiring. */
  lemma MalformedNotExpiring(token: string, now: int, decode: Decoder)
    requires |Split(token, '.')| != 3
    ensures !ExpiringSoon(token, now, decode)
  {
  }

  /** A token without a `.` has one segment only, so it is never reported as expiring. */
  lemma UndottedNotExpiring(token: string, now: int, decode: Decoder)
    requires '.' !in token
    ensures !ExpiringSoon(token, now, decode)
  {
    SplitNoDelimiter(token, '.');
  }

  /** A token without an `exp` claim is "not expiring soon" at every time. */
  lemma NoExpNotExpiring(token: string, now: int, decode: Decoder)
    requires TokenPayload(token, decode).Some? ==> TokenPayload(token, decode).value.exp.None?
    ensures !ExpiringSoon(token, now, decode)
  {
  }

  /** Once a token is expiring soon it stays so: the check is monotone in time. */
  lemma ExpiringSoonStays(token: string, now: int, later: int, decode: Decoder)
    requires now <= later
    requires ExpiringSoon(token, now, decode)
    ensures ExpiringSoon(token, later, decode)
  {
  }

  /** For a token with `exp`, the check holds exactly in the last 300 seconds and after. */
  lemma ExpiringSoonWindow(token: string, now: int, decode: Decoder)
    requires TokenPayload(token, decode).Some? && TokenPayload(token, decode).value.exp.Some?
    ensures ExpiringSoon(token, now, decode) <==> now > TokenPayload(token, decode).value.exp.value - 300
  {
  }

  // ---------------------------------------------------------------------------
  // Reading the two stores
  // ---------------------------------------------------------------------------

  function Slot(store: map<string, string>, key: string): Option<string> {
    if key in store then Some(store[key]) else None
  }

  /** The token a getter returns: the session value when truthy, else the temp-store value. */
  function Pick(session: map<string, string>, temp: map<string, string>, kind: Kind): (r: Option<string>)
    ensures !FalsyOpt(Slot(session, SessionKey(kind))) ==> r == Slot(session, SessionKey(kind))
    ensures FalsyOpt(Slot(session, SessionKey(kind))) ==> r == Slot(temp, TempKey(kind))
  {
    var s := Slot(session, SessionKey(kind));
    if FalsyOpt(s) then Slot(temp, TempKey(kind)) else s
  }

  /** A getter returns a token only if one of the two slots holds it. */
  lemma PickFromSlots(session: map<string, string>, temp: map<string, string>, kind: Kind)
    ensures Pick(session, temp, kind).Some? ==>
              Pick(session, temp, kind) == Slot(session, SessionKey(kind))
              || Pick(session, temp, kind) == Slot(temp, TempKey(kind))
    ensures Pick(session, temp, kind).None? <==>
              (FalsyOpt(Slot(session, SessionKey(kind))) && TempKey(kind) !in temp)
  {
  }

  /** After a token is written to both slots, the getter returns exactly that token. */
  lemma PickAfterStore(session: map<string, string>, temp: map<string, string>, kind: Kind, token: string)
    ensures Pick(session[SessionKey(kind) := token], temp[TempKey(kind) := token], kind) == Some(token)
  {
  }

  /** Writing one kind of token leaves what the getter of the other kind returns. */
  lemma PickOtherKind(session: map<string, string>, temp: map<string, string>, kind: Kind, other: Kind, token: string)
    requires other != kind
    ensures Pick(session[SessionKey(kind) := token], temp[TempKey(kind) := token], other) == Pick(session, temp, other)
  {
    SlotsDistinct();
  }

  /** With both slots of a kind removed, its getter returns null. */
  lemma PickAfterClear(session: map<string, string>, temp: map<string, string>, kind: Kind)
    ensures Pick(session - {SessionKey(kind)}, temp - {TempKey(kind)}, kind).None?
  {
  }

  // ---------------------------------------------------------------------------
  // The service object
  // ---------------------------------------------------------------------------

  /** Where a store operation throws: nowhere, at the session write, or at the temp-store write. */
  datatype Fault = NoFault | SessionFails | TempStoreFails

  /** What the service logs. */
  datatype Event = Stored(kind: Kind) | StoreFailed(kind: Kind) | ExpiringSoonWarning(kind: Kind) | Cleared

  class TokenService {
    /** The values the user's session holds, by key. */
    var session: map<string, string>
    /** The values the private temp store `entra_jwt_token` holds, by key. */
    var tempStore: map<string, string>
    ghost var log: seq<Event>

    constructor (session: map<string, string>, tempStore: map<string, string>)
      ensures this.session == session && this.tempStore == tempStore && log == []
    {
      this.session := session;
      this.tempStore := tempStore;
      log := [];
    }

    /** The token the getter of `kind` returns in the current state. */
    function Current(kind: Kind): Option<string>
      reads this
    {
      Pick(session, tempStore, kind)
    }

    /**
     * `storeJwtToken` / `storeAccessToken`: the token goes to the session,
     * then to the temp store; an exception stops the remaining writes and is
     * logged, never raised.
     */
    method Store(kind: Kind, token: string, fault: Fault)
      modifies this
      ensures session == if fault.SessionFails? then old(session) else old(session)[SessionKey(kind) := token]
      ensures tempStore == if fault.NoFault? then old(tempStore)[TempKey(kind) := token] else old(tempStore)
      ensures log == old(log) + [if fault.NoFault? then Stored(kind) else StoreFailed(kind)]
    {
      if fault.SessionFails? {
        log := log + [StoreFailed(kind)];
        return;
      }
      session := session[SessionKey(kind) := token];
      if fault.TempStoreFails? {
        log := log + [StoreFailed(kind)];
        return;
      }
      tempStore := tempStore[TempKey(kind) := token];
      log := log + [Stored(kind)];
    }

    method StoreJwtToken(token: string, fault: Fault)
      modifies this
      ensures fault.NoFault? ==> Current(Jwt) == Some(token) && Current(Access) == old(Current(Access))
      ensures session == if fault.SessionFails? then old(session) else old(session)[SessionKey(Jwt) := token]
      ensures tempStore == if fault.NoFault? then old(tempStore)[TempKey(Jwt) := token] else old(tempStore)
      ensures log == old(log) + [if fault.NoFault? then Stored(Jwt) else StoreFailed(Jwt)]
    {
      Store(Jwt, token, fault);
      if fault.NoFault? {
        PickAfterStore(old(session), old(tempStore), Jwt, token);
        PickOtherKind(old(session), old(tempStore), Jwt, Access, token);
      }
    }

    method StoreAccessToken(token: string, fault: Fault)
      modifies this
      ensures fault.NoFault? ==> Current(Access) == Some(token) && Current(Jwt) == old(Current(Jwt))
      ensures session == if fault.SessionFails? then old(session) else old(session)[SessionKey(Access) := token]
      ensures tempStore == if fault.NoFault? then old(tempStore)[TempKey(Access) := token] else old(tempStore)
      ensures log == old(log) + [if fault.NoFault? then Stored(Access) else StoreFailed(Access)]
    {
      Store(Access, token, fault);
      if fault.NoFault? {
        PickAfterStore(old(session), old(tempStore), Access, token);
        PickOtherKind(old(session), old(tempStore), Access, Jwt, token);
      }
    }

    /**
     * `getJwtToken` / `getAccessToken`: the session value if truthy, else the
     * temp-store value, returned unchanged; the expiry check only logs.
     */
    method Get(kind: Kind, now: int, decode: Decoder) returns (token: Option<string>)
      modifies this`log
      ensures token == Current(kind)
      ensures log == old(log)
                     + if !FalsyOpt(token) && ExpiringSoon(token.value, now, decode) then [ExpiringSoonWarning(kind)] else []
    {
      token := Slot(session, SessionKey(kind));
      if FalsyOpt(token) {
        token := Slot(tempStore, TempKey(kind));
      }
      if !FalsyOpt(token) && ExpiringSoon(token.value, now, decode) {
        log := log + [ExpiringSoonWarning(kind)];
      }
    }

    method GetJwtToken(now: int, decode: Decoder) returns (token: Option<string>)
      modifies this`log
      ensures token == Current(Jwt)
      ensures log == old(log)
                     + if !FalsyOpt(token) && ExpiringSoon(token.value, now, decode) then [ExpiringSoonWarning(Jwt)] else []
    {
      token := Get(Jwt, now, decode);
    }

    method GetAccessToken(now: int, decode: Decoder) returns (token: Option<string>)
      modifies this`log
      ensures token == Current(Access)
      ensures log == old(log)
                     + if !FalsyOpt(token) && ExpiringSoon(token.value, now, decode) then [ExpiringSoonWarning(Access)] else []
    {
      token := Get(Access, now, decode);
    }

    /** `clearTokens`: both slots of both kinds are removed, so both getters return null. */
    method ClearTokens()
      modifies this
      ensures session == old(session) - {SessionKey(Jwt), SessionKey(Access)}
      ensures tempStore == old(tempStore) - {TempKey(Jwt), TempKey(Access)}
      ensures Current(Jwt).None? && Current(Access).None?
      ensures log == old(log) + [Cleared]
    {
      session := session - {SessionKey(Jwt)};
      session := session - {SessionKey(Access)};
      tempStore := tempStore - {TempKey(Jwt)};
      tempStore := tempStore - {TempKey(Access)};
      log := log + [Cleared];
    }
  }
}

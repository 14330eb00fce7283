/**
 * The `whatsapp-qr` edge function: an in-memory table of WhatsApp
 * sessions behind a small HTTP router. Starting a session stores a new
 * session that waits for its QR code to be scanned; scanning connects it
 * to a phone; the status endpoint reads a session; disconnecting removes
 * it. The request's id, QR code and clock readings are parameters.
 */
module WhatsappQr {
  import opened Options
  import opened Strings

  /** The four states a session's `status` may name. */
  datatype SessionStatus = Waiting | Connected | Disconnected | Failed

  /** A stored session. `qrCode` and `phone` are optional, as in the source's interface. */
  datatype Session = Session(
    sessionId: string,
    qrCode: Option<string>,
    status: SessionStatus,
    phone: Option<string>,
    lastActivity: string)

  /** The phone number a scan pretends to connect. */
  const MockPhone := "+55 11 99999-9999"

  /**
   * The shapes the code gives a session: waiting with a QR code and no
   * phone (after start), or connected with a phone and no QR code (after
   * a scan).
   */
  predicate WellFormed(s: Session) {
    (s.status == Waiting && s.qrCode.Some? && s.phone.None?)
    || (s.status == Connected && s.phone.Some? && s.qrCode.None?)
  }

  /** The session a scan leaves behind: connected to the mock phone, QR code cleared, activity refreshed. */
  function Scanned(s: Session, now: string): (t: Session)
    ensures WellFormed(t)
    ensures t.sessionId == s.sessionId && t.lastActivity == now
    ensures t.status == Connected && t.phone == Some(MockPhone) && t.qrCode == None
  {
    s.(status := Connected, phone := Some(MockPhone), lastActivity := now, qrCode := None)
  }

  /** The HTTP methods the router tells apart. */
  datatype HttpMethod = OPTIONS | POST | GET | DELETE | OtherMethod(name: string)

  /**
   * A request body as `req.json()` and the `{ sessionId }` destructuring
   * see it: text that is not JSON makes the parse throw, and a JSON `null`
   * makes the destructuring throw; both are `Malformed`. Otherwise only
   * the `sessionId` member matters. A member that is
   * missing or not a string is `None`: such a value can never be a key of
   * the table, which the code only fills with strings.
   */
  datatype Body = Malformed | Json(sessionId: Option<string>)

  /** A request: its HTTP method, the path of its URL, the `sessionId` query parameter and its body. */
  datatype Request = Request(verb: HttpMethod, path: string, query: Option<string>, body: Body)

  /** The replies, each with the status code `Code` gives it. */
  datatype Response =
    | Preflight                                        // CORS preflight, 200
    | Started(sessionId: string, qrCode: string)       // waiting for a scan, 200
    | ScanDone(sessionId: string, phone: string)       // connected, 200
    | CurrentSession(session: Session)                 // the stored session, 200
    | DisconnectDone                                   // removed, 200
    | InvalidSessionId                                 // 400
    | SessionNotFound                                  // 404
    | EndpointNotFound                                 // 404
    | ServerError                                      // 500, the body was not JSON

  function Code(r: Response): (code: int)
    ensures code == 200 <==> r.Preflight? || r.Started? || r.ScanDone? || r.CurrentSession? || r.DisconnectDone?
    ensures code == 404 <==> r.SessionNotFound? || r.EndpointNotFound?
  {
    match r
    case InvalidSessionId => 400
    case SessionNotFound => 404
    case EndpointNotFound => 404
    case ServerError => 500
    case _ => 200
  }

  /** The handlers a request can reach. */
  datatype Endpoint = PreflightRoute | StartRoute | ScanRoute | StatusRoute | DisconnectRoute | NoRoute

  /** `url.pathname.split('/').pop()`: the text after the last `/`. */
  function LastSegment(path: string): (seg: string)
    ensures '/' !in seg
  {
    var pieces := Split(path, '/');
    pieces[|pieces| - 1]
  }

  /**
   * The router: OPTIONS first, then the method together with the last
   * path segment; every other pair has no endpoint.
   */
  function Route(verb: HttpMethod, path: string): (e: Endpoint)
    ensures e == PreflightRoute <==> verb == OPTIONS
    ensures e == StartRoute <==> verb == POST && LastSegment(path) == "start-session"
    ensures e == ScanRoute <==> verb == POST && LastSegment(path) == "scan-qr"
    ensures e == StatusRoute <==> verb == GET && LastSegment(path) == "status"
    ensures e == DisconnectRoute <==> verb == DELETE && LastSegment(path) == "disconnect"
  {
    if verb == OPTIONS then PreflightRoute
    else
      var seg := LastSegment(path);
      match verb
      case POST => if seg == "start-session" then StartRoute else if seg == "scan-qr" then ScanRoute else NoRoute
      case GET => if seg == "status" then StatusRoute else NoRoute
      case DELETE => if seg == "disconnect" then DisconnectRoute else NoRoute
      case _ => NoRoute
  }

  /** `last` ends `s`, and is either all of `s` or preceded by `sep`. */
  predicate EndPiece(s: string, sep: char, last: string) {
    |last| <= |s| && last == s[|s| - |last|..] && (|last| < |s| ==> s[|s| - |last| - 1] == sep)
  }

  /** The last piece of a split is a suffix without the separator, preceded by the separator unless it is the whole text. */
  lemma {:induction false} LastPiece(s: string, sep: char)
    ensures EndPiece(s, sep, Split(s, sep)[|Split(s, sep)| - 1])
  {
    if s != [] {
      LastPiece(s[1..], sep);
      if s[0] != sep && |Split(s[1..], sep)| == 1 {
        LastPieceWhole(s, sep);
      } else {
        LastPieceOfTail(s, sep);
      }
    }
  }

  /** Text without a separator after its first character is one piece. */
  lemma LastPieceWhole(s: string, sep: char)
    requires s != [] && s[0] != sep && |Split(s[1..], sep)| == 1
    ensures EndPiece(s, sep, Split(s, sep)[|Split(s, sep)| - 1])
  {
    var rest := Split(s[1..], sep);
    JoinSplit(s[1..], sep);
    assert rest[0] == s[1..];
    assert Split(s, sep) == [[s[0]] + rest[0]];
    assert [s[0]] + s[1..] == s;
  }

  /** Otherwise the last piece is the last piece of the tail. */
  lemma LastPieceOfTail(s: string, sep: char)
    requires s != [] && (s[0] == sep || |Split(s[1..], sep)| > 1)
    requires EndPiece(s[1..], sep, Split(s[1..], sep)[|Split(s[1..], sep)| - 1])
    ensures EndPiece(s, sep, Split(s, sep)[|Split(s, sep)| - 1])
  {
    var rest := Split(s[1..], sep);
    var pieces := Split(s, sep);
    var last := rest[|rest| - 1];
    assert pieces[|pieces| - 1] == last;
    assert |last| == |s| - 1 ==> s[0] == sep by {
      if |last| == |s| - 1 && s[0] != sep {
        assert last == s[1..];
        NoSeparatorIsOnePiece(s[1..], sep);
      }
    }
    EndPieceExtends(s, sep, last);
  }

  /** An end piece of the tail is an end piece of the whole, unless it is the whole tail after a non-separator. */
  lemma EndPieceExtends(s: string, sep: char, last: string)
    requires s != [] && EndPiece(s[1..], sep, last)
    requires |last| == |s| - 1 ==> s[0] == sep
    ensures EndPiece(s, sep, last)
  {
    assert s[1..][|s| - 1 - |last|..] == s[|s| - |last|..];
    if |last| < |s| - 1 {
      assert s[1..][|s| - 1 - |last| - 1] == s[|s| - |last| - 1];
    }
  }

  /** Only the last segment counts: any prefix before a final `/segment` routes the same way. */
  lemma RouteIgnoresPrefix(verb: HttpMethod, prefix: string, seg: string)
    requires '/' !in seg
    ensures LastSegment(prefix + ['/'] + seg) == seg
    ensures Route(verb, prefix + ['/'] + seg) == Route(verb, ['/'] + seg)
  {
    SegmentAfterSlash(prefix + ['/'] + seg, seg);
    SegmentAfterSlash(['/'] + seg, seg);
  }

  /** A path ending in `/` and a segment without `/` has that segment last. */
  lemma SegmentAfterSlash(path: string, seg: string)
    requires '/' !in seg && |seg| < |path| && path[|path| - |seg|..] == seg && path[|path| - |seg| - 1] == '/'
    ensures LastSegment(path) == seg
  {
    LastPiece(path, '/');
    var last := LastSegment(path);
    assert last == path[|path| - |seg|..];
  }

  /** The session table. */
  class SessionStore {
    var sessions: map<string, Session>

    /** Every session is stored under its own id and has one of the two shapes the code gives it. */
    predicate Valid()
      reads this
    {
      forall id :: id in sessions ==> sessions[id].sessionId == id && WellFormed(sessions[id])
    }

    /** `new Map()`: no session yet. */
    constructor ()
      ensures Valid() && sessions == map[]
    {
      sessions := map[];
    }

    /** `!sessionId || !sessions.has(sessionId)`: the id is missing, empty, or unknown. */
    predicate Unknown(sessionId: Option<string>)
      reads this
    {
      sessionId.None? || sessionId.value == [] || sessionId.value !in sessions
    }

    /**
     * `startWhatsAppSession`: stores a new session under the fresh id,
     * waiting, with the generated QR code and no phone.
     */
    method StartSession(sessionId: string, qrCode: string, now: string) returns (r: Response)
      requires Valid()
      modifies this
      ensures Valid()
      ensures sessions == old(sessions)[sessionId := Session(sessionId, Some(qrCode), Waiting, None, now)]
      ensures r == Started(sessionId, qrCode)
    {
      sessions := sessions[sessionId := Session(sessionId, Some(qrCode), Waiting, None, now)];
      r := Started(sessionId, qrCode);
    }

    /**
     * `handleQRScan`: an unknown id is refused with 400 and nothing
     * changes; a known one, whatever its state, becomes connected and no
     * other session changes.
     */
    method ScanQr(sessionId: Option<string>, now: string) returns (r: Response)
      requires Valid()
      modifies this
      ensures Valid()
      ensures old(Unknown(sessionId)) ==> r == InvalidSessionId && sessions == old(sessions)
      ensures !old(Unknown(sessionId)) ==>
        sessions == old(sessions)[sessionId.value := Scanned(old(sessions)[sessionId.value], now)]
        && r == ScanDone(sessionId.value, MockPhone)
    {
      if sessionId.None? || sessionId.value == [] || sessionId.value !in sessions {
        return InvalidSessionId;
      }
      var id := sessionId.value;
      sessions := sessions[id := Scanned(sessions[id], now)];
      r := ScanDone(id, MockPhone);
    }

    /** `getSessionStatus`: 404 for an unknown id, otherwise the stored session; the table is only read. */
    method SessionStatusOf(sessionId: Option<string>) returns (r: Response)
      requires Valid()
      ensures Unknown(sessionId) ==> r == SessionNotFound
      ensures !Unknown(sessionId) ==> r == CurrentSession(sessions[sessionId.value])
      ensures r.CurrentSession? ==> WellFormed(r.session) && r.session.sessionId == sessionId.value
    {
      if sessionId.None? || sessionId.value == [] || sessionId.value !in sessions {
        return SessionNotFound;
      }
      r := CurrentSession(sessions[sessionId.value]);
    }

    /** `disconnectSession`: 404 and no change for an unknown id, otherwise exactly that session is removed. */
    method Disconnect(sessionId: Option<string>) returns (r: Response)
      requires Valid()
      modifies this
      ensures Valid()
      ensures old(Unknown(sessionId)) ==> r == SessionNotFound && sessions == old(sessions)
      ensures !old(Unknown(sessionId)) ==> r == DisconnectDone && sessions == old(sessions) - {sessionId.value}
    {
      if sessionId.None? || sessionId.value == [] || sessionId.value !in sessions {
        return SessionNotFound;
      }
      sessions := sessions - {sessionId.value};
      r := DisconnectDone;
    }

    /**
     * The request handler: routes the request and runs the handler it
     * reaches. A body that is not JSON makes the scan and disconnect
     * handlers throw, which becomes a 500 with the table unchanged.
     * `freshId`, `qrCode` and `now` stand for `crypto.randomUUID()`, the
     * generated QR code and `new Date().toISOString()`.
     */
    method Handle(req: Request, freshId: string, qrCode: string, now: string) returns (r: Response)
      requires Valid()
      modifies this
      ensures Valid()
      ensures Route(req.verb, req.path) in {PreflightRoute, StatusRoute, NoRoute} ==> sessions == old(sessions)
      ensures Route(req.verb, req.path) == PreflightRoute ==> r == Preflight
      ensures Route(req.verb, req.path) == NoRoute ==> r == EndpointNotFound
      ensures Route(req.verb, req.path) == StartRoute ==>
        r == Started(freshId, qrCode) && sessions == old(sessions)[freshId := Session(freshId, Some(qrCode), Waiting, None, now)]
      ensures Route(req.verb, req.path) in {ScanRoute, DisconnectRoute} && req.body.Malformed? ==>
        r == ServerError && sessions == old(sessions)
      ensures Route(req.verb, req.path) == ScanRoute && req.body.Json? && old(Unknown(req.body.sessionId)) ==>
        r == InvalidSessionId && sessions == old(sessions)
      ensures Route(req.verb, req.path) == ScanRoute && req.body.Json? && !old(Unknown(req.body.sessionId)) ==>
        r == ScanDone(req.body.sessionId.value, MockPhone)
        && sessions == old(sessions)[req.body.sessionId.value := Scanned(old(sessions)[req.body.sessionId.value], now)]
      ensures Route(req.verb, req.path) == StatusRoute && Unknown(req.query) ==> r == SessionNotFound
      ensures Route(req.verb, req.path) == StatusRoute && !Unknown(req.query) ==> r == CurrentSession(sessions[req.query.value])
      ensures Route(req.verb, req.path) == DisconnectRoute && req.body.Json? && old(Unknown(req.body.sessionId)) ==>
        r == SessionNotFound && sessions == old(sessions)
      ensures Route(req.verb, req.path) == DisconnectRoute && req.body.Json? && !old(Unknown(req.body.sessionId)) ==>
        r == DisconnectDone && sessions == old(sessions) - {req.body.sessionId.value}
    {
      match Route(req.verb, req.path) {
        case PreflightRoute =>
          r := Preflight;
        case StartRoute =>
          r := StartSession(freshId, qrCode, now);
        case ScanRoute =>
          if req.body.Malformed? {
            r := ServerError;
          } else {
            r := ScanQr(req.body.sessionId, now);
          }
        case StatusRoute =>
          r := SessionStatusOf(req.query);
        case DisconnectRoute =>
          if req.body.Malformed? {
            r := ServerError;
          } else {
            r := Disconnect(req.body.sessionId);
          }
        case NoRoute =>
          r := EndpointNotFound;
      }
    }
  }

  /** A fresh id adds exactly one session. */
  lemma StartAddsOne(sessions: map<string, Session>, s: Session)
    requires s.sessionId !in sessions
    ensures |sessions[s.sessionId := s].Keys| == |sessions.Keys| + 1
  {
    assert sessions[s.sessionId := s].Keys == sessions.Keys + {s.sessionId};
  }

  /** Disconnecting a stored session removes exactly one. */
  lemma DisconnectRemovesOne(sessions: map<string, Session>, id: string)
    requires id in sessions
    ensures |(sessions - {id}).Keys| == |sessions.Keys| - 1
  {
    assert (sessions - {id}).Keys == sessions.Keys - {id};
  }
}

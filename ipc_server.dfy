/** One exchange on the IPC socket of happe/src/ipc_server.rs
    (`handle_connection`): a request framed as a 4-byte little-endian length
    and a JSON payload is read, dispatched (`__LIST_SESSIONS__`, `__PING__`
    or a query for the coordinator) and answered with a frame of the same
    shape. The session store is a map held by a `SessionStore` object; the
    JSON codecs, the coordinator, the clock, the fresh UUID and the store's
    failures are inputs of the model, gathered in an `Env`. */
module IpcServer {
  import opened Prelude

  const Pow32: nat := 0x1_0000_0000

  /** Sessions live for 24 hours after their last query, in seconds. */
  const SessionTtlSeconds: int := 24 * 60 * 60

  const ListCommand: string := "__LIST_SESSIONS__"
  const PingCommand: string := "__PING__"
  const QueryFailedPrefix: string := "Failed to process query: "
  const CreateFailedPrefix: string := "Failed to create session: "

  // ---------------------------------------------------------------------
  // Framing

  /** `(n as u32).to_le_bytes()` for a length that fits in 32 bits. */
  function EncodeU32Le(n: nat): (bs: seq<byte>)
    requires n < Pow32
    ensures |bs| == 4
  {
    [(n % 256) as byte, (n / 0x100 % 256) as byte, (n / 0x1_0000 % 256) as byte, (n / 0x100_0000) as byte]
  }

  /** `u32::from_le_bytes`. */
  function DecodeU32Le(bs: seq<byte>): (n: nat)
    requires |bs| == 4
    ensures n < Pow32
  {
    bs[0] as nat + 0x100 * bs[1] as nat + 0x1_0000 * bs[2] as nat + 0x100_0000 * bs[3] as nat
  }

  /** Decoding the four bytes written for a length gives the length back. */
  lemma LittleEndianRoundTrip(n: nat)
    requires n < Pow32
    ensures DecodeU32Le(EncodeU32Le(n)) == n
  {
    var b0, q0 := n % 256, n / 256;
    var b1, q1 := q0 % 256, q0 / 256;
    var b2, b3 := q1 % 256, q1 / 256;
    assert n / 0x100 == q0;
    assert n / 0x1_0000 == q1;
    assert n / 0x100_0000 == b3;
    assert n == b0 + 256 * (b1 + 256 * (b2 + 256 * b3));
  }

  /** And every four bytes are the encoding of the length they decode to. */
  lemma LittleEndianBytesRoundTrip(bs: seq<byte>)
    requires |bs| == 4
    ensures EncodeU32Le(DecodeU32Le(bs)) == bs
  {
    var n := DecodeU32Le(bs);
    var b0, b1, b2, b3 := bs[0] as nat, bs[1] as nat, bs[2] as nat, bs[3] as nat;
    assert n == b0 + 256 * (b1 + 256 * (b2 + 256 * b3));
    assert n % 256 == b0 && n / 256 == b1 + 256 * (b2 + 256 * b3);
    assert n / 0x100 == n / 256;
    assert n / 0x1_0000 == (n / 256) / 256 == b2 + 256 * b3;
    assert n / 0x100_0000 == ((n / 256) / 256) / 256 == b3;
  }

  /** The response frame: `response_data.len() as u32` in little-endian
      order, then the payload. The cast keeps the low 32 bits of the
      length. */
  function ResponseFrame(payload: seq<byte>): (frame: seq<byte>)
    ensures |frame| == 4 + |payload| && frame[4..] == payload
  {
    EncodeU32Le(|payload| % Pow32) + payload
  }

  /** The request side: four length bytes and exactly that many payload
      bytes; `None` when the stream ends first (`read_exact` fails). */
  function ReadFrame(input: seq<byte>): (r: Option<seq<byte>>)
    ensures r.Some? ==> |input| >= 4 && 4 + DecodeU32Le(input[..4]) <= |input|
                        && r.value == input[4..4 + DecodeU32Le(input[..4])]
    ensures r.None? <==> |input| < 4 || |input| - 4 < DecodeU32Le(input[..4])
  {
    if |input| < 4 then None
    else
      var n := DecodeU32Le(input[..4]);
      if |input| - 4 < n then None else Some(input[4..4 + n])
  }

  /** A peer reading a response frame with the same framing gets the
      payload back, whatever follows it on the stream. */
  lemma FrameRoundTrip(payload: seq<byte>, rest: seq<byte>)
    requires |payload| < Pow32
    ensures ReadFrame(ResponseFrame(payload) + rest) == Some(payload)
  {
    assert |payload| % Pow32 == |payload|;
    LittleEndianRoundTrip(|payload|);
    ReadFrameOf(EncodeU32Le(|payload|), payload, rest);
  }

  /** Four length bytes that announce the payload's length, then the
      payload: the frame reads back as the payload. */
  lemma ReadFrameOf(header: seq<byte>, payload: seq<byte>, rest: seq<byte>)
    requires |header| == 4 && DecodeU32Le(header) == |payload|
    ensures ReadFrame(header + payload + rest) == Some(payload)
  {
    var input := header + payload + rest;
    assert input[..4] == header;
    assert input[4..4 + |payload|] == payload;
  }

  /** A payload of 4 GiB or more gets a wrapped length prefix, so the peer
      cuts it short. */
  lemma OversizedPayloadMisframed(payload: seq<byte>)
    requires |payload| >= Pow32
    ensures ReadFrame(ResponseFrame(payload)) != Some(payload)
  {
    var input := ResponseFrame(payload);
    assert input[..4] == EncodeU32Le(|payload| % Pow32);
    LittleEndianRoundTrip(|payload| % Pow32);
  }

  // ---------------------------------------------------------------------
  // Sessions and the store

  /** A turn of the conversation kept in a session (`ConversationTurn`). */
  datatype Turn = Turn(role: string, content: string)

  /** A session as the store keeps it: its id, the conversation so far and
      the instant (in seconds) after which it expires. */
  datatype Session = Session(id: string, history: seq<Turn>, expiresAt: Option<int>)

  /** The session `create_session(id)` makes: empty, without an expiry. */
  function NewSession(id: string): (s: Session)
    ensures s.id == id && s.history == []
  {
    Session(id, [], None)
  }

  /** Every stored session sits under its own id. */
  ghost predicate KeyedById(sessions: map<string, Session>)
  {
    forall k | k in sessions :: sessions[k].id == k
  }

  /** `ks` lists every stored id exactly once, in some order. */
  ghost predicate IsEnumeration(ks: seq<string>, sessions: map<string, Session>)
  {
    (forall i, j | 0 <= i < j < |ks| :: ks[i] != ks[j])
    && (forall k :: k in sessions <==> k in ks)
  }

  /** The stored sessions, in the order `ks` names them. */
  function SessionsInOrder(ks: seq<string>, sessions: map<string, Session>): (ss: seq<Session>)
    requires forall k | k in ks :: k in sessions
    ensures |ss| == |ks|
    ensures forall i | 0 <= i < |ks| :: ss[i] == sessions[ks[i]]
  {
    if ks == [] then [] else [sessions[ks[0]]] + SessionsInOrder(ks[1..], sessions)
  }

  /** `sessions.into_iter().map(|s| s.id).collect()`. */
  function IdsOf(ss: seq<Session>): (ids: seq<string>)
    ensures |ids| == |ss|
    ensures forall i | 0 <= i < |ss| :: ids[i] == ss[i].id
  {
    if ss == [] then [] else [ss[0].id] + IdsOf(ss[1..])
  }

  /** Some order in which a store may list its sessions. */
  ghost function EnumerationOf(sessions: map<string, Session>): (ks: seq<string>)
    ensures IsEnumeration(ks, sessions)
    decreases |sessions|
  {
    if sessions == map[] then []
    else
      var k :| k in sessions;
      var rest := sessions - {k};
      assert sessions.Keys == rest.Keys + {k};
      ConsEnumeration(k, rest, sessions, EnumerationOf(rest));
      [k] + EnumerationOf(rest)
  }

  /** A key in front of an enumeration of the other keys enumerates all. */
  lemma ConsEnumeration(k: string, rest: map<string, Session>, sessions: map<string, Session>, tail: seq<string>)
    requires k in sessions && rest == sessions - {k} && IsEnumeration(tail, rest)
    ensures IsEnumeration([k] + tail, sessions)
  {
    var ks := [k] + tail;
    forall x ensures x in sessions <==> x in ks {
      if x != k {
        assert x in sessions <==> x in rest;
      }
    }
    forall i, j | 0 <= i < j < |ks| ensures ks[i] != ks[j] {
      if i == 0 {
        assert ks[j] == tail[j - 1] && ks[j] in rest;
      } else {
        assert ks[i] == tail[i - 1] && ks[j] == tail[j - 1];
      }
    }
  }

  /** Listing the sessions of a store names each stored session by its own
      id, so the ids listed are exactly the stored ones. */
  lemma ListedIdsAreStoredIds(ks: seq<string>, sessions: map<string, Session>)
    requires KeyedById(sessions) && IsEnumeration(ks, sessions)
    ensures IdsOf(SessionsInOrder(ks, sessions)) == ks
  {
  }

  /** The session store behind `SessionStoreRef`: a map from id to session.
      Failures of `create_session`, `save_session` and `list_sessions` are
      given to the operations as their `fault` argument. */
  class SessionStore {
    var sessions: map<string, Session>

    constructor()
      ensures sessions == map[]
    {
      sessions := map[];
    }

    /** `get_session`: fails exactly when no session has that id. */
    method Get(id: string) returns (r: Option<Session>)
      ensures id in sessions <==> r.Some?
      ensures r.Some? ==> r.value == sessions[id]
    {
      r := if id in sessions then Some(sessions[id]) else None;
    }

    /** `create_session`: stores and returns a new session under `id`. */
    method Create(id: string, fault: Option<string>) returns (r: Result<Session, string>)
      modifies this
      ensures fault.None? ==> r == Ok(NewSession(id)) && sessions == old(sessions)[id := NewSession(id)]
      ensures fault.Some? ==> r == Err(fault.value) && sessions == old(sessions)
    {
      if fault.Some? {
        return Err(fault.value);
      }
      sessions := sessions[id := NewSession(id)];
      r := Ok(NewSession(id));
    }

    /** `save_session`: stores the session under its own id. */
    method Save(s: Session, fault: Option<string>) returns (r: Result<(), string>)
      modifies this
      ensures fault.None? ==> r.Ok? && sessions == old(sessions)[s.id := s]
      ensures fault.Some? ==> r == Err(fault.value) && sessions == old(sessions)
    {
      if fault.Some? {
        return Err(fault.value);
      }
      sessions := sessions[s.id := s];
      r := Ok(());
    }

    /** `list_sessions`: every stored session once, in an order the store
        chooses; `order` names that order. */
    method List(fault: Option<string>) returns (r: Result<seq<Session>, string>, ghost order: seq<string>)
      ensures IsEnumeration(order, sessions)
      ensures fault.Some? ==> r == Err(fault.value)
      ensures fault.None? ==> r == Ok(SessionsInOrder(order, sessions))
    {
      if fault.Some? {
        return Err(fault.value), EnumerationOf(sessions);
      }
      var remaining := sessions.Keys;
      var listed: seq<Session> := [];
      order := [];
      while remaining != {}
        invariant remaining <= sessions.Keys
        invariant forall k :: k in sessions <==> k in remaining || k in order
        invariant forall k | k in order :: k !in remaining
        invariant forall i, j | 0 <= i < j < |order| :: order[i] != order[j]
        invariant listed == SessionsInOrder(order, sessions)
        decreases remaining
      {
        var k :| k in remaining;
        AppendInOrder(order, k, sessions);
        listed := listed + [sessions[k]];
        order := order + [k];
        remaining := remaining - {k};
      }
      r := Ok(listed);
    }
  }

  lemma AppendInOrder(ks: seq<string>, k: string, sessions: map<string, Session>)
    requires k in sessions && forall x | x in ks :: x in sessions
    ensures SessionsInOrder(ks + [k], sessions) == SessionsInOrder(ks, sessions) + [sessions[k]]
  {
  }

  // ---------------------------------------------------------------------
  // The exchange, as a function of its inputs

  datatype Request = Request(query: string, sessionId: Option<string>)

  datatype Response = Response(response: string, sessionId: Option<string>, error: Option<string>)

  /** The failures one exchange meets: those of the store, and a peer that
      takes only so many more bytes of the response before it hangs up,
      after which a write fails with the given error. */
  datatype Faults = Faults(
    createFails: Option<string>,
    saveFails: Option<string>,
    listFails: Option<string>,
    hangUp: Option<(nat, string)>)

  /** What the handler depends on besides the request and the store:
      `serde_json` on requests, responses and id lists, the coordinator
      (which may change the session and may fail), `Utc::now()` in seconds,
      the `Uuid::new_v4()` it would draw, and the store's failures. */
  datatype Env = Env(
    decode: seq<byte> -> Option<Request>,
    encode: Response -> seq<byte>,
    encodeIds: seq<string> -> string,
    coordinator: (Session, string) -> (Session, Result<string, string>),
    now: int,
    freshId: string,
    faults: Faults)

  /** Why a connection ends with `Err`. */
  datatype Failure = ReadFailed | MalformedRequest | StoreFailed(message: string) | WriteFailed(message: string)

  /** `request.session_id.unwrap_or_else(|| Uuid::new_v4().to_string())`. */
  function SessionIdFor(req: Request, freshId: string): (id: string)
    ensures req.sessionId.Some? ==> id == req.sessionId.value
    ensures req.sessionId.None? ==> id == freshId
  {
    match req.sessionId
    case Some(id) => id
    case None => freshId
  }

  /** `get_or_create_session`: the stored session and the store after the
      call. */
  function GetOrCreate(sessions: map<string, Session>, id: string, createFails: Option<string>)
    : (r: Result<(Session, map<string, Session>), string>)
  {
    if id in sessions then Ok((sessions[id], sessions))
    else match createFails
      case Some(e) => Err(CreateFailedPrefix + e)
      case None => Ok((NewSession(id), sessions[id := NewSession(id)]))
  }

  /** A stored session is resumed; otherwise a new one is created and
      stored, and only a failing create makes the call fail. Either way the
      session handed back carries the requested id and no stored session is
      lost or altered. */
  lemma GetOrCreateResumesOrCreates(sessions: map<string, Session>, id: string, createFails: Option<string>)
    requires KeyedById(sessions)
    ensures var r := GetOrCreate(sessions, id, createFails);
      && (r.Err? <==> id !in sessions && createFails.Some?)
      && (r.Err? ==> r.error == CreateFailedPrefix + createFails.value)
      && (r.Ok? ==> r.value.0.id == id && id in r.value.1 && r.value.1[id] == r.value.0
                    && KeyedById(r.value.1)
                    && (forall k | k in sessions :: k in r.value.1 && r.value.1[k] == sessions[k]))
      && (r.Ok? && id !in sessions ==> r.value.0.history == [])
  {
  }

  /** The session given to the coordinator: the stored or created one,
      with its expiry moved to 24 hours from now. */
  function Refreshed(s: Session, now: int): (t: Session)
    ensures t.id == s.id && t.history == s.history
    ensures t.expiresAt == Some(now + SessionTtlSeconds)
  {
    s.(expiresAt := Some(now + SessionTtlSeconds))
  }

  /** The response to a query once the coordinator has answered. */
  function QueryResponse(id: string, outcome: Result<string, string>): Response
  {
    match outcome
    case Ok(text) => Response(text, Some(id), None)
    case Err(e) => Response("", Some(id), Some(QueryFailedPrefix + e))
  }

  /** The special commands and the query path of `handle_connection`: the
      response (or the error that ends the connection) and the store
      afterwards. `listing` is the order in which the store lists its
      sessions. */
  function Dispatch(req: Request, sessions: map<string, Session>, env: Env, listing: seq<string>)
    : (Result<Response, string>, map<string, Session>)
    requires IsEnumeration(listing, sessions)
  {
    if req.query == ListCommand then
      match env.faults.listFails
      case Some(e) => (Err(e), sessions)
      case None => (Ok(Response(env.encodeIds(IdsOf(SessionsInOrder(listing, sessions))), None, None)), sessions)
    else if req.query == PingCommand then
      (Ok(Response("PONG", req.sessionId, None)), sessions)
    else
      var id := SessionIdFor(req, env.freshId);
      match GetOrCreate(sessions, id, env.faults.createFails)
      case Err(e) => (Err(e), sessions)
      case Ok((session, created)) =>
        var (after, outcome) := env.coordinator(Refreshed(session, env.now), req.query);
        var saved := if env.faults.saveFails.Some? then created else created[after.id := after];
        (Ok(QueryResponse(id, outcome)), saved)
  }

  /** What one connection leaves behind. */
  datatype Handled = Handled(result: Result<(), Failure>, written: seq<byte>, sessions: map<string, Session>)

  /** `handle_connection` on the bytes the peer sends. */
  /** The request a connection carries, or why it carries none. */
  function RequestIn(input: seq<byte>, decode: seq<byte> -> Option<Request>): (r: Result<Request, Failure>)
    ensures r.Err? ==> r.error.ReadFailed? || r.error.MalformedRequest?
  {
    match ReadFrame(input)
    case None => Err(ReadFailed)
    case Some(payload) =>
      match decode(payload)
      case None => Err(MalformedRequest)
      case Some(req) => Ok(req)
  }

  /** Writing a frame to a peer that may hang up: what reaches it and how
      the writes end. */
  function Delivered(frame: seq<byte>, hangUp: Option<(nat, string)>): (Result<(), Failure>, seq<byte>)
  {
    match hangUp
    case Some((room, e)) =>
      if room < |frame| then (Err(WriteFailed(e)), frame[..room]) else (Ok(()), frame)
    case None => (Ok(()), frame)
  }

  /** Answering after the dispatch: a response is framed and written, and
      the exchange fails if the peer hangs up first; a store failure ends
      the connection with nothing written. */
  function Answer(reply: Result<Response, string>, after: map<string, Session>, encode: Response -> seq<byte>,
                  hangUp: Option<(nat, string)>): Handled
  {
    match reply
    case Err(e) => Handled(Err(StoreFailed(e)), [], after)
    case Ok(response) =>
      var (result, written) := Delivered(ResponseFrame(encode(response)), hangUp);
      Handled(result, written, after)
  }

  /** `handle_connection` on the bytes the peer sends. */
  function Handle(input: seq<byte>, sessions: map<string, Session>, env: Env, listing: seq<string>): Handled
    requires IsEnumeration(listing, sessions)
  {
    match RequestIn(input, env.decode)
    case Err(f) => Handled(Err(f), [], sessions)
    case Ok(req) =>
      var (reply, after) := Dispatch(req, sessions, env, listing);
      Answer(reply, after, env.encode, env.faults.hangUp)
  }

  // ---------------------------------------------------------------------
  // Properties of the exchange

  /** A request that is cut short or does not decode ends the connection
      with an error before the store is used and before anything is
      written. */
  lemma BadRequestTouchesNothing(input: seq<byte>, sessions: map<string, Session>, env: Env, listing: seq<string>)
    requires IsEnumeration(listing, sessions)
    requires ReadFrame(input).None? || env.decode(ReadFrame(input).value).None?
    ensures var h := Handle(input, sessions, env, listing);
      h.result.Err? && !h.result.error.StoreFailed? && h.written == [] && h.sessions == sessions
  {
  }

  /** A ping is answered with `PONG` and the request's own session id, and
      the store is neither read nor changed, whatever faults it has. */
  lemma PingAnswersPong(req: Request, sessions: map<string, Session>, env: Env, listing: seq<string>)
    requires IsEnumeration(listing, sessions)
    requires req.query == PingCommand
    ensures Dispatch(req, sessions, env, listing) == (Ok(Response("PONG", req.sessionId, None)), sessions)
  {
  }

  /** Listing answers with the ids of all stored sessions, each once, and
      no session id; a failing listing ends the connection. The store is
      unchanged either way. */
  lemma ListingNamesEveryStoredSession(req: Request, sessions: map<string, Session>, env: Env, listing: seq<string>)
    requires IsEnumeration(listing, sessions) && KeyedById(sessions)
    requires req.query == ListCommand
    ensures var (reply, after) := Dispatch(req, sessions, env, listing);
      && after == sessions
      && (env.faults.listFails.Some? ==> reply == Err(env.faults.listFails.value))
      && (env.faults.listFails.None? ==> reply == Ok(Response(env.encodeIds(listing), None, None)))
  {
    ListedIdsAreStoredIds(listing, sessions);
  }

  /** A query saves the session as the coordinator left it, after success
      and after failure alike; the session created for a new id stays stored
      even when the save fails; no other stored session changes. */
  lemma QuerySavesOnBothOutcomes(req: Request, sessions: map<string, Session>, env: Env, listing: seq<string>)
    requires IsEnumeration(listing, sessions) && KeyedById(sessions)
    requires req.query != ListCommand && req.query != PingCommand
    ensures var id := SessionIdFor(req, env.freshId);
      var (reply, after) := Dispatch(req, sessions, env, listing);
      && (reply.Err? <==> id !in sessions && env.faults.createFails.Some?)
      && (reply.Ok? ==>
            var stored := if id in sessions then sessions[id] else NewSession(id);
            var (left, _) := env.coordinator(Refreshed(stored, env.now), req.query);
            var created := sessions[id := stored];
            after == if env.faults.saveFails.Some? then created else created[left.id := left])
      && (reply.Err? ==> after == sessions)
  {
    var id := SessionIdFor(req, env.freshId);
    GetOrCreateResumesOrCreates(sessions, id, env.faults.createFails);
    if id in sessions {
      assert sessions[id := sessions[id]] == sessions;
    }
  }

  /** The coordinator receives the session with its expiry set to 24 hours
      from now, and with the history it had in the store. */
  lemma ExpiryRefreshedBeforeCoordinator(session: Session, now: int, stored: Session)
    requires session == Refreshed(stored, now)
    ensures session.expiresAt == Some(now + 86400)
    ensures session.id == stored.id && session.history == stored.history
  {
  }

  /** A failing save is only logged: the response does not depend on it. */
  lemma SaveFailureOnlyLogged(req: Request, sessions: map<string, Session>, env: Env, listing: seq<string>, e: string)
    requires IsEnumeration(listing, sessions)
    ensures Dispatch(req, sessions, env.(faults := env.faults.(saveFails := Some(e))), listing).0
         == Dispatch(req, sessions, env.(faults := env.faults.(saveFails := None)), listing).0
  {
  }

  /** The shapes of a query's response: the session id is always present;
      the error is present exactly when the coordinator failed, and then the
      response text is empty. */
  lemma QueryResponseShapes(id: string, outcome: Result<string, string>)
    ensures var r := QueryResponse(id, outcome);
      && r.sessionId == Some(id)
      && (r.error.Some? <==> outcome.Err?)
      && (outcome.Ok? ==> r.response == outcome.value)
      && (outcome.Err? ==> r.response == "" && r.error == Some(QueryFailedPrefix + outcome.error))
  {
  }

  /** Only listing, and a ping that came without one, answer without a
      session id. */
  lemma SessionIdAbsentOnlyForListingOrBarePing(req: Request, sessions: map<string, Session>, env: Env, listing: seq<string>)
    requires IsEnumeration(listing, sessions)
    requires Dispatch(req, sessions, env, listing).0.Ok?
    ensures Dispatch(req, sessions, env, listing).0.value.sessionId.None?
        <==> req.query == ListCommand || (req.query == PingCommand && req.sessionId.None?)
  {
  }

  /** Every exchange keeps each session stored under its own id. */
  lemma HandleKeepsSessionsKeyed(input: seq<byte>, sessions: map<string, Session>, env: Env, listing: seq<string>)
    requires IsEnumeration(listing, sessions) && KeyedById(sessions)
    ensures KeyedById(Handle(input, sessions, env, listing).sessions)
  {
    match ReadFrame(input)
    case None =>
    case Some(payload) =>
      match env.decode(payload)
      case None =>
      case Some(req) =>
        if req.query != ListCommand && req.query != PingCommand {
          GetOrCreateResumesOrCreates(sessions, SessionIdFor(req, env.freshId), env.faults.createFails);
        }
  }

  /** A peer that hangs up before the whole response is written makes the
      exchange fail with the write error; what it got is a beginning of the
      frame too short to read as a response. A peer that stays gets the
      whole frame and reads back the response. */
  lemma HangUpCutsResponse(reply: Result<Response, string>, after: map<string, Session>, encode: Response -> seq<byte>,
                           hangUp: Option<(nat, string)>)
    requires reply.Ok? && |encode(reply.value)| < Pow32
    ensures var h := Answer(reply, after, encode, hangUp);
      var frame := ResponseFrame(encode(reply.value));
      && h.sessions == after
      && (h.result.Err? <==> hangUp.Some? && hangUp.value.0 < |frame|)
      && (h.result.Err? ==> h.result == Err(WriteFailed(hangUp.value.1)) && h.written == frame[..hangUp.value.0]
                            && ReadFrame(h.written).None?)
      && (h.result.Ok? ==> h.written == frame && ReadFrame(h.written) == Some(encode(reply.value)))
  {
    var payload := encode(reply.value);
    var frame := ResponseFrame(payload);
    FrameRoundTrip(payload, []);
    assert frame + [] == frame;
    if hangUp.Some? && hangUp.value.0 < |frame| {
      var room := hangUp.value.0;
      if room >= 4 {
        assert frame[..room][..4] == frame[..4];
        assert frame[..4] == (frame + [])[..4];
      }
    }
  }

  // ---------------------------------------------------------------------
  // The exchange, step by step

  /** The connection's stream: the bytes the peer has still to be read and
      the bytes written back so far. */
  class Connection {
    var input: seq<byte>
    var written: seq<byte>
    /** How many more bytes the peer takes before it hangs up, and the
        error a write then fails with; `None` for a peer that stays. */
    var hangUp: Option<(nat, string)>

    constructor(input: seq<byte>, hangUp: Option<(nat, string)>)
      ensures this.input == input && written == [] && this.hangUp == hangUp
    {
      this.input := input;
      written := [];
      this.hangUp := hangUp;
    }

    /** `read_exact`: exactly `n` bytes, or a failure when the stream ends
        first. */
    method ReadExact(n: nat) returns (r: Option<seq<byte>>)
      modifies this
      ensures n <= |old(input)| ==> r == Some(old(input)[..n]) && input == old(input)[n..]
      ensures n > |old(input)| ==> r.None? && input == []
      ensures written == old(written) && hangUp == old(hangUp)
    {
      if n > |input| {
        input := [];
        return None;
      }
      r := Some(input[..n]);
      input := input[n..];
    }

    /** `write_all`: every byte, or the error once the peer has hung up,
        after the bytes it still took. */
    method WriteAll(bs: seq<byte>) returns (r: Result<(), string>)
      modifies this
      ensures input == old(input)
      ensures old(hangUp).Some? && old(hangUp).value.0 < |bs| ==>
        r == Err(old(hangUp).value.1) && written == old(written) + bs[..old(hangUp).value.0]
        && hangUp == Some((0, old(hangUp).value.1))
      ensures old(hangUp).Some? && old(hangUp).value.0 >= |bs| ==>
        r == Ok(()) && written == old(written) + bs && hangUp == Some((old(hangUp).value.0 - |bs|, old(hangUp).value.1))
      ensures old(hangUp).None? ==> r == Ok(()) && written == old(written) + bs && hangUp == None
    {
      if hangUp.Some? && hangUp.value.0 < |bs| {
        written := written + bs[..hangUp.value.0];
        hangUp := Some((0, hangUp.value.1));
        return Err(hangUp.value.1);
      }
      written := written + bs;
      if hangUp.Some? {
        hangUp := Some((hangUp.value.0 - |bs|, hangUp.value.1));
      }
      r := Ok(());
    }
  }

  /** `get_or_create_session` on the store object. */
  method GetOrCreateSession(store: SessionStore, id: string, createFails: Option<string>) returns (r: Result<Session, string>)
    modifies store
    ensures var g := GetOrCreate(old(store.sessions), id, createFails);
      && (g.Ok? ==> r == Ok(g.value.0) && store.sessions == g.value.1)
      && (g.Err? ==> r == Err(g.error) && store.sessions == old(store.sessions))
  {
    var found := store.Get(id);
    if found.Some? {
      return Ok(found.value);
    }
    var created := store.Create(id, createFails);
    match created
    case Ok(s) => r := Ok(s);
    case Err(e) => r := Err(CreateFailedPrefix + e);
  }

  /** `handle_list_sessions`. */
  method HandleListSessions(store: SessionStore, env: Env) returns (r: Result<Response, string>, ghost order: seq<string>)
    ensures IsEnumeration(order, store.sessions)
    ensures r == Dispatch(Request(ListCommand, None), store.sessions, env, order).0
  {
    var listed;
    listed, order := store.List(env.faults.listFails);
    if listed.Err? {
      return Err(listed.error), order;
    }
    r := Ok(Response(env.encodeIds(IdsOf(listed.value)), None, None));
  }

  /** Reading and decoding the request: the first steps of
      `handle_connection`. */
  method ReadRequest(conn: Connection, env: Env) returns (r: Result<Request, Failure>)
    modifies conn
    ensures conn.written == old(conn.written) && conn.hangUp == old(conn.hangUp)
    ensures r == RequestIn(old(conn.input), env.decode)
  {
    ghost var input := conn.input;
    var sizeBuf := conn.ReadExact(4);
    if sizeBuf.None? {
      return Err(ReadFailed);
    }
    var msgSize := DecodeU32Le(sizeBuf.value);
    assert sizeBuf.value == input[..4];
    var msgBuf := conn.ReadExact(msgSize);
    if msgBuf.None? {
      return Err(ReadFailed);
    }
    assert msgBuf.value == input[4..][..msgSize] == input[4..4 + msgSize];
    var request := env.decode(msgBuf.value);
    if request.None? {
      return Err(MalformedRequest);
    }
    r := Ok(request.value);
  }

  /** The dispatch of `handle_connection` on the store object. */
  method Respond(store: SessionStore, req: Request, env: Env) returns (reply: Result<Response, string>, ghost listing: seq<string>)
    modifies store
    ensures IsEnumeration(listing, old(store.sessions))
    ensures (reply, store.sessions) == Dispatch(req, old(store.sessions), env, listing)
  {
    listing := EnumerationOf(store.sessions);
    if req.query == ListCommand {
      reply, listing := HandleListSessions(store, env);
    } else if req.query == PingCommand {
      reply := Ok(Response("PONG", req.sessionId, None));
    } else {
      var id := SessionIdFor(req, env.freshId);
      var got := GetOrCreateSession(store, id, env.faults.createFails);
      if got.Err? {
        return Err(got.error), listing;
      }
      var session := Refreshed(got.value, env.now);
      var (after, outcome) := env.coordinator(session, req.query);
      // A failed save is only logged; the response is the same.
      var saved := store.Save(after, env.faults.saveFails);
      reply := Ok(QueryResponse(id, outcome));
    }
  }

  /** Writing the response frame: the length, then the payload; the payload
      is not written once writing the length has failed. */
  method WriteResponse(conn: Connection, responseData: seq<byte>) returns (r: Result<(), Failure>)
    modifies conn
    ensures (r, conn.written) == (Delivered(ResponseFrame(responseData), old(conn.hangUp)).0,
                                 old(conn.written) + Delivered(ResponseFrame(responseData), old(conn.hangUp)).1)
    ensures conn.input == old(conn.input)
  {
    ghost var frame := ResponseFrame(responseData);
    ghost var start := conn.written;
    assert frame == EncodeU32Le(|responseData| % Pow32) + responseData;
    var sizeWritten := conn.WriteAll(EncodeU32Le(|responseData| % Pow32));
    if sizeWritten.Err? {
      assert frame[..old(conn.hangUp).value.0] == EncodeU32Le(|responseData| % Pow32)[..old(conn.hangUp).value.0];
      assert Delivered(frame, old(conn.hangUp)) == (Err(WriteFailed(sizeWritten.error)), frame[..old(conn.hangUp).value.0]);
      return Err(WriteFailed(sizeWritten.error));
    }
    var dataWritten := conn.WriteAll(responseData);
    if dataWritten.Err? {
      ghost var room := old(conn.hangUp).value.0;
      assert conn.written == (start + EncodeU32Le(|responseData| % Pow32)) + responseData[..room - 4];
      assert frame[..room] == EncodeU32Le(|responseData| % Pow32) + responseData[..room - 4];
      assert conn.written == start + frame[..room];
      assert Delivered(frame, old(conn.hangUp)) == (Err(WriteFailed(dataWritten.error)), frame[..old(conn.hangUp).value.0]);
      return Err(WriteFailed(dataWritten.error));
    }
    assert conn.written == start + frame;
    assert Delivered(frame, old(conn.hangUp)) == (Ok(()), frame);
    r := Ok(());
  }

  /** `handle_connection`: what it returns, what it writes and what the
      store holds afterwards are those of `Handle` on the bytes the peer
      sent, for the order `listing` in which the store listed its
      sessions. */
  method HandleConnection(conn: Connection, store: SessionStore, env: Env)
    returns (r: Result<(), Failure>, ghost listing: seq<string>)
    requires conn.hangUp == env.faults.hangUp
    modifies conn, store
    ensures IsEnumeration(listing, old(store.sessions))
    ensures var h := Handle(old(conn.input), old(store.sessions), env, listing);
      && r == h.result
      && conn.written == old(conn.written) + h.written
      && store.sessions == h.sessions
  {
    ghost var input, sessions := conn.input, store.sessions;
    var request := ReadRequest(conn, env);
    if request.Err? {
      listing := EnumerationOf(sessions);
      return Err(request.error), listing;
    }
    var reply;
    reply, listing := Respond(store, request.value, env);
    assert Handle(input, sessions, env, listing) == Answer(reply, store.sessions, env.encode, env.faults.hangUp);
    if reply.Err? {
      return Err(StoreFailed(reply.error)), listing;
    }
    r := WriteResponse(conn, env.encode(reply.value));
  }
}

/** The user-facing mini site (routes/min.py): remembering the last page a
    visitor saw, the guards of the chat page, the admin ping and message
    posting, and the online-user counter of its socket events. The session,
    the chat store and the bot are values handed in and returned. */
module MinRoutes {
  import opened Text

  // ---- Session and last visit ------------------------------------------------

  datatype Session = Session(userId: Option<string>, lastVisit: Option<string>, adminId: Option<string>)

  datatype Response = Redirect(location: string) | Respond(body: string, status: int)

  /** Endpoints (last path segment) whose visit is not remembered. */
  const SKIPPED_ENDPOINTS: set<string> := {"auth", "send_message", "ping_admin", "send_audio"}
  /** Paths whose visit is not remembered. */
  const UNTRACKED_PATHS: set<string> := {"/min/", "/min/get-headers"}

  const ONBOARDING: string := "/min/onboarding"
  /** `url_for("min.index")`. */
  const INDEX: string := "/min/"

  /** The `before_request` rule: a path under /min is remembered unless it is
      one of the action endpoints, the index or the header fragment, or an
      audio file. */
  predicate Tracked(path: string)
  {
    StartsWith(path, "/min") && LastPiece(path, '/') !in SKIPPED_ENDPOINTS
    && path !in UNTRACKED_PATHS && !Contains(path, "audio_file")
  }

  function BeforeRequest(s: Session, path: string): Session
  {
    if Tracked(path) then s.(lastVisit := Some(path)) else s
  }

  /** The index sends a returning visitor back to the remembered page, and
      anyone else to onboarding. */
  function Index(s: Session): (r: Response)
    ensures r.Redirect?
    ensures s.lastVisit.Some? && s.lastVisit.value !in UNTRACKED_PATHS ==> r == Redirect(s.lastVisit.value)
    ensures s.lastVisit.None? || s.lastVisit.value in UNTRACKED_PATHS ==> r == Redirect(ONBOARDING)
  {
    if s.lastVisit.Some? && s.lastVisit.value !in UNTRACKED_PATHS then Redirect(s.lastVisit.value)
    else Redirect(ONBOARDING)
  }

  /** Onboarding forgets the remembered page. */
  function Onboard(s: Session): Session
  {
    s.(lastVisit := None)
  }

  /** Visiting a page and then the index comes back to that page exactly when
      the page is remembered; otherwise the index goes where it went before. */
  lemma VisitThenIndex(s: Session, path: string)
    ensures Tracked(path) ==> Index(BeforeRequest(s, path)) == Redirect(path)
    ensures !Tracked(path) ==> Index(BeforeRequest(s, path)) == Index(s)
  {
  }

  lemma OnboardingResetsIndex(s: Session)
    ensures Index(Onboard(s)) == Redirect(ONBOARDING)
  {
  }

  /** The remembered page is always one the rule accepts. */
  predicate SessionOk(s: Session)
  {
    s.lastVisit.Some? ==> Tracked(s.lastVisit.value)
  }

  /** The rule keeps the remembered page acceptable, and from a session
      where it is, the index sends a visitor either to onboarding or to a
      page the rule accepts: never back to itself or to an action endpoint. */
  lemma IndexStaysTracked(s: Session, path: string)
    requires SessionOk(s)
    ensures SessionOk(BeforeRequest(s, path)) && SessionOk(Onboard(s))
    ensures Index(s) == Redirect(ONBOARDING) || Tracked(Index(s).location)
  {
  }

  /** `login_required`: a session without a user, or whose user is gone, is
      sent to the index. */
  function LoginRequired(s: Session, users: set<string>): (r: Option<Response>)
    ensures r.None? <==> s.userId.Some? && s.userId.value in users
    ensures r.Some? ==> r.value == Redirect(INDEX)
  {
    if s.userId.None? || s.userId.value !in users then Some(Redirect(INDEX)) else None
  }

  // ---- Usernames ---------------------------------------------------------------

  /** `generate_random_username`, for the value `n` that `randint(1000, 9999)`
      drew (both ends included). */
  function RandomUsername(n: int): (r: string)
    requires 1000 <= n <= 9999
    ensures |r| == 9 && StartsWith(r, "user_")
    ensures forall i :: 5 <= i < 9 ==> '0' <= r[i] <= '9'
  {
    FourDigits(n);
    "user_" + Decimal(n)
  }

  /** The drawn number can be read back from the name: different draws give
      different names. */
  lemma UsernameEncodesDraw(n: int, m: int)
    requires 1000 <= n <= 9999 && 1000 <= m <= 9999
    ensures ParseDecimal(RandomUsername(n)[5..]) == n
    ensures RandomUsername(n) == RandomUsername(m) ==> n == m
  {
    assert RandomUsername(n)[5..] == Decimal(n);
    assert RandomUsername(m)[5..] == Decimal(m);
    ParseDecimalOfDecimal(n);
    ParseDecimalOfDecimal(m);
  }

  // ---- Chats -------------------------------------------------------------------

  datatype Message = Message(sender: string, content: string)

  /** A support chat, stored under its room id. */
  datatype Chat = Chat(subject: string, adminRequired: bool, botName: string, messages: seq<Message>)

  datatype User = User(userId: string, name: string)

  /** A chat belongs to the user whose id starts its room id. */
  predicate Owns(u: User, roomId: string)
  {
    StartsWith(roomId, u.userId)
  }

  /** The chat page: an unknown room, or one of another user, forgets the
      remembered page and goes to onboarding; otherwise the page is shown. */
  function ViewChat(s: Session, u: User, chats: map<string, Chat>, roomId: string): (r: (Response, Session))
    ensures r.0.Respond? <==> roomId in chats && Owns(u, roomId)
    ensures r.0.Respond? ==> r.0.status == 200 && r.1 == s
    ensures r.0.Redirect? ==> r.0 == Redirect(ONBOARDING) && r.1 == Onboard(s)
  {
    if roomId !in chats || !Owns(u, roomId) then (Redirect(ONBOARDING), Onboard(s))
    else (Respond("user/min-index.html", 200), s)
  }

  /** An opening hour of the admin settings (`day`, `startTime`, `endTime`,
      times as "HH:MM"). */
  datatype Timing = Timing(day: string, startTime: string, endTime: string)

  /** The `available` test of `ping_admin`: some opening hour is on today
      (compared in lower case) and spans the current time. */
  function Available(timings: seq<Timing>, day: string, time: string): (r: bool)
    ensures r <==> exists i :: 0 <= i < |timings| && OpenAt(timings[i], day, time)
    decreases |timings|
  {
    if |timings| == 0 then false
    else OpenAt(timings[0], day, time) || Available(timings[1..], day, time)
  }

  predicate OpenAt(t: Timing, day: string, time: string)
  {
    Lower(t.day) == day && StrLe(t.startTime, time) && StrLe(time, t.endTime)
  }

  /** Opening hours that overlap in time keep the admin available through
      the gap between them. */
  lemma AvailableThroughout(t: Timing, day: string, a: string, b: string, c: string)
    requires OpenAt(t, day, a) && OpenAt(t, day, c) && StrLe(a, b) && StrLe(b, c)
    ensures Available([t], day, b)
  {
    StrLeTrans(t.startTime, a, b);
    StrLeTrans(b, c, t.endTime);
    assert OpenAt([t][0], day, b);
  }

  const NOTIFIED: string := "Ana has been notified! She will join soon"

  /** `ping_admin`: GET goes back to the chat; an unknown room is 404; a chat
      already waiting for the admin is 304; otherwise the chat is flagged and
      a SYSTEM message added, and the answer is 204 for htmx and 200 for
      others. Without an admin in the session the e-mail step fails after
      that, which Flask answers with 500. The `available` test above is
      computed but does not take part. */
  function PingAdmin(isGet: bool, roomId: string, htmx: bool, adminExists: bool,
                     chats: map<string, Chat>): (r: (Response, map<string, Chat>))
    ensures isGet ==> r.0 == Redirect("/chat/" + roomId) && r.1 == chats
    ensures !isGet && roomId !in chats ==> r.0.Respond? && r.0.status == 404 && r.1 == chats
    ensures !isGet && roomId in chats && chats[roomId].adminRequired ==> r.0 == Respond("", 304) && r.1 == chats
    ensures !isGet && roomId in chats && !chats[roomId].adminRequired ==>
      r.1 == chats[roomId := chats[roomId].(adminRequired := true,
                                             messages := chats[roomId].messages + [Message("SYSTEM", NOTIFIED)])]
      && r.0.Respond? && r.0.status == (if !adminExists then 500 else if htmx then 204 else 200)
  {
    if isGet then (Redirect("/chat/" + roomId), chats)
    else if roomId !in chats then
      (if htmx then Respond("Chat not found", 404) else Respond("{\"error\": \"Chat not found\"}", 404), chats)
    else
      var c := chats[roomId];
      if c.adminRequired then (Respond("", 304), chats)
      else
        var c2 := c.(adminRequired := true, messages := c.messages + [Message("SYSTEM", NOTIFIED)]);
        var resp := if !adminExists then Respond("", 500)
                    else if htmx then Respond("", 204)
                    else Respond("{\"status\": \"Ana has been notified\"}", 200);
        (resp, chats[roomId := c2])
  }

  /** Pinging again is answered 304 and adds nothing: the admin is told once. */
  lemma PingOnce(roomId: string, htmx: bool, adminExists: bool, chats: map<string, Chat>)
    requires roomId in chats
    ensures var after := PingAdmin(false, roomId, htmx, adminExists, chats).1;
            PingAdmin(false, roomId, htmx, adminExists, after) == (Respond("", 304), after)
  {
  }

  /** The prompt the bot gets for a posted message. */
  function BotPrompt(c: Chat, message: string): string
  {
    "Subject of chat: " + c.subject + "\n" + message
  }

  /** `send_message`. GET goes back to the chat; a missing or empty message
      is 302; an unknown room is 404; another user's room is 403. Otherwise
      the user's message is stored; unless the chat waits for the admin the
      bot (`respond`, None when the call raises) then answers the message
      prefixed with the subject, and the answer is stored under the chat's
      bot name, provided the bot call succeeds and the session has an admin
      to bill (both run in one `try`). */
  function SendMessage(isGet: bool, form: Option<string>, roomId: string, u: User,
                       chats: map<string, Chat>, respond: (string, string) -> Option<string>, adminExists: bool)
    : (r: (Response, map<string, Chat>))
    ensures isGet ==> r == (Redirect("/chat/" + roomId), chats)
    ensures !isGet && (form.None? || form.value == "") ==> r == (Respond("", 302), chats)
    ensures !isGet && form.Some? && form.value != "" && roomId !in chats ==>
      r == (Respond("{\"error\": \"Chat not found\"}", 404), chats)
    ensures r.0 == Respond("{\"success\": true}", 200) <==>
      !isGet && form.Some? && form.value != "" && roomId in chats && Owns(u, roomId)
    ensures !isGet && form.Some? && form.value != "" && roomId in chats && !Owns(u, roomId) ==>
      r == (Respond("{\"error\": \"Unauthorized\"}", 403), chats)
    ensures r.1 != chats ==> r.0.Respond? && r.0.status == 200
  {
    if isGet then (Redirect("/chat/" + roomId), chats)
    else if form.None? || form.value == "" then (Respond("", 302), chats)
    else if roomId !in chats then (Respond("{\"error\": \"Chat not found\"}", 404), chats)
    else if !Owns(u, roomId) then (Respond("{\"error\": \"Unauthorized\"}", 403), chats)
    else
      var c := chats[roomId];
      var withUser := c.messages + [Message(u.name, form.value)];
      var reply := if c.adminRequired then None else respond(BotPrompt(c, form.value), roomId);
      var messages := if reply.Some? && adminExists then withUser + [Message(c.botName, reply.value)] else withUser;
      (Respond("{\"success\": true}", 200), chats[roomId := c.(messages := messages)])
  }

  /** A posted message is stored verbatim as the user's turn after the
      chat's earlier messages; the bot adds one turn, its answer to the
      subject-prefixed message under the chat's bot name, exactly when the
      chat is not waiting for the admin, the bot answers and there is an
      admin to bill; nothing else in any chat changes. */
  lemma PostedMessageStored(form: string, roomId: string, u: User, chats: map<string, Chat>,
                            respond: (string, string) -> Option<string>, adminExists: bool)
    requires form != "" && roomId in chats && Owns(u, roomId)
    ensures var after := SendMessage(false, Some(form), roomId, u, chats, respond, adminExists).1;
      after.Keys == chats.Keys
      && (forall k :: k in chats && k != roomId ==> after[k] == chats[k])
      && after[roomId].subject == chats[roomId].subject
      && after[roomId].adminRequired == chats[roomId].adminRequired
      && after[roomId].messages[..|chats[roomId].messages|] == chats[roomId].messages
      && after[roomId].messages[|chats[roomId].messages|] == Message(u.name, form)
    ensures var c := chats[roomId];
      var after := SendMessage(false, Some(form), roomId, u, chats, respond, adminExists).1;
      var answer := respond(BotPrompt(c, form), roomId);
      if !c.adminRequired && answer.Some? && adminExists then
        |after[roomId].messages| == |c.messages| + 2
        && after[roomId].messages[|c.messages| + 1] == Message(c.botName, answer.value)
      else |after[roomId].messages| == |c.messages| + 1
  {
    var c := chats[roomId];
    var after := SendMessage(false, Some(form), roomId, u, chats, respond, adminExists).1;
    assert after[roomId].messages[..|c.messages|] == c.messages;
  }

  /** As the route is written the bot's call always raises, and the `try`
      swallows it: a posted message is stored and answered 200, but the bot
      never adds a turn. */
  lemma MissingRespondNoBotTurn(form: string, roomId: string, u: User, chats: map<string, Chat>,
                                respond: (string, string) -> Option<string>, adminExists: bool)
    requires forall prompt, room :: respond(prompt, room).None?
    requires form != "" && roomId in chats && Owns(u, roomId)
    ensures var r := SendMessage(false, Some(form), roomId, u, chats, respond, adminExists);
      r.0 == Respond("{\"success\": true}", 200)
      && r.1[roomId].messages == chats[roomId].messages + [Message(u.name, form)]
  {
    assert respond(BotPrompt(chats[roomId], form), roomId).None?;
  }

  // ---- Online users ------------------------------------------------------------

  /** `ONLINE_USERS` of the app configuration, as the `join_min` and
      `leave_min` socket events change it. */
  class OnlineUsers {
    var count: int

    constructor()
      ensures count == 0
    {
      count := 0;
    }

    /** `join_min`: counted only for a logged-in session. */
    method OnJoin(s: Session)
      modifies this
      ensures count == Joined(old(count), s)
    {
      if s.userId.None? {
        return;
      }
      count := count + 1;
    }

    /** `leave_min`: without a room, a user id or a known user nothing
        happens; otherwise the count drops by one, never below zero. */
    method OnLeave(room: Option<string>, s: Session, users: set<string>)
      modifies this
      ensures count == Left(old(count), room, s, users)
    {
      if room.None? || room.value == "" || s.userId.None? || s.userId.value == "" {
        return;
      }
      if s.userId.value !in users {
        return;
      }
      count := if count - 1 > 0 then count - 1 else 0;
    }
  }

  function Joined(n: int, s: Session): int
  {
    if s.userId.Some? then n + 1 else n
  }

  function Left(n: int, room: Option<string>, s: Session, users: set<string>): int
  {
    if room.None? || room.value == "" || s.userId.None? || s.userId.value == "" || s.userId.value !in users
    then n
    else if n - 1 > 0 then n - 1 else 0
  }

  /** The counter never goes negative, and a counted visitor who leaves
      brings it back to where it was. */
  lemma OnlineCountSound(n: int, room: string, s: Session, users: set<string>)
    requires n >= 0
    ensures Joined(n, s) >= 0 && Left(n, Some(room), s, users) >= 0
    ensures room != "" && s.userId.Some? && s.userId.value != "" && s.userId.value in users ==>
      Left(Joined(n, s), Some(room), s, users) == n
  {
  }
}

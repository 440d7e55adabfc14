/**
 * The HTTP front of the chatbot: a table of chatbot sessions keyed by user
 * id, the bearer-token rule that authenticates a message, and the message
 * endpoint that binds the session's bot to the token's user before asking.
 * Token decoding is an oracle (`decode`).
 */
module Api {
  import opened Optional
  import opened Values
  import opened Strings
  import opened Orchestration
  import opened Chatbot

  /** What decoding a token gives: the payload's `user_id` (absent when the
      payload has none), or a decoding error. */
  datatype Decoded = Payload(userId: Option<string>) | InvalidToken

  datatype Auth = Authorized(userId: Option<string>) | Rejected(status: int, detail: string)

  const Unauthorized := 401
  const SessionMissing := 404
  const BearerPrefix := "bearer "

  /** The header starts with "bearer " in any letter case; its seventh
      character is then the space ending the scheme. */
  predicate HasBearerPrefix(header: string): (b: bool)
    ensures b ==> |header| >= 7 && header[6] == ' '
    ensures StartsWith(header, "Bearer ") || StartsWith(header, "bearer ") ==> b
  {
    |header| >= |BearerPrefix| && Lower(header[..|BearerPrefix|]) == BearerPrefix
  }

  /** A header that passes the prefix check has its first space right after
      the scheme, so the token (all after the first space) is the header
      without its first seven characters. */
  lemma TokenFollowsPrefix(header: string)
    requires HasBearerPrefix(header)
    ensures SplitOnce(header, ' ') == Some((header[..6], header[7..]))
  {
    var l := Lower(header[..7]);
    assert forall i :: 0 <= i < 6 ==> l[i] == LowerChar(header[i]) && l[i] != ' ';
    assert forall i :: 0 <= i < 6 ==> header[i] != ' ';
    assert header[6] == ' ' by {
      assert l[6] == ' ';
    }
    assert ' ' !in header[..6];
    assert header == header[..6] + [' '] + header[7..];
    SplitAtFirst(header, 6, ' ');
  }

  /** Splitting at the first occurrence of `c`, when it is at `i`. */
  lemma SplitAtFirst(s: string, i: nat, c: char)
    requires i < |s| && s[i] == c && c !in s[..i]
    ensures SplitOnce(s, c) == Some((s[..i], s[i + 1..]))
  {
    var r := SplitOnce(s, c);
    assert r.Some?;
    var (a, b) := r.value;
    assert s == a + [c] + b && c !in a;
    assert |a| == i;
    assert a == s[..i];
    assert b == s[i + 1..];
  }

  /** `get_user_id_from_auth`: a missing or non-bearer header and an
      undecodable token are refused with 401; otherwise the token's user id
      (possibly absent) is the caller's identity. */
  function UserIdFromAuth(authorization: Option<string>, decode: string -> Decoded): (r: Auth)
    ensures r.Authorized? <==>
      authorization.Some? && HasBearerPrefix(authorization.value) && decode(authorization.value[7..]).Payload?
    ensures r.Authorized? ==> r.userId == decode(authorization.value[7..]).userId
    ensures r.Rejected? ==> r.status == Unauthorized
  {
    if authorization.None? || authorization.value == "" || !HasBearerPrefix(authorization.value) then
      Rejected(Unauthorized, "Missing or invalid Authorization header")
    else
      var header := authorization.value;
      TokenFollowsPrefix(header);
      var token := SplitOnce(header, ' ').value.1;
      match decode(token)
      case InvalidToken => Rejected(Unauthorized, "Invalid token")
      case Payload(userId) => Authorized(userId)
  }

  datatype InitResult = Initialized(sessionId: string) | InitFailed

  /** The answer of the message endpoint. A model exception and an
      exhausted model oracle surface as a server error. */
  datatype MessageResult =
    | MessageReply(reply: string)
    | HttpError(status: int, detail: string)
    | ServerError

  class ApiServer {
    var chatbotSessions: map<string, ChatBot>

    constructor()
      ensures chatbotSessions == map[]
    {
      chatbotSessions := map[];
    }

    /** `init_chat`: the user id is the session id. An existing session is
        kept as it is; otherwise a new bot is connected to the configured
        servers (None: the configuration cannot be read, and the request
        fails), bound to the user and stored. */
    method InitChat(userId: string, config: Option<seq<(string, ServerReply)>>) returns (r: InitResult)
      modifies this
      ensures old(userId in chatbotSessions) ==>
        r == Initialized(userId) && chatbotSessions == old(chatbotSessions)
      ensures userId !in old(chatbotSessions) && config.None? ==>
        r == InitFailed && chatbotSessions == old(chatbotSessions)
      ensures userId !in old(chatbotSessions) && config.Some? ==>
        && r == Initialized(userId)
        && chatbotSessions.Keys == old(chatbotSessions).Keys + {userId}
        && (forall k :: k in old(chatbotSessions) ==> chatbotSessions[k] == old(chatbotSessions)[k])
        && fresh(chatbotSessions[userId])
        && chatbotSessions[userId].userId == Some(userId)
        && chatbotSessions[userId].chatHistory == []
        && chatbotSessions[userId].Reg() == ConnectAll(Registry(map[], [], []), config.value)
    {
      if userId in chatbotSessions {
        return Initialized(userId);
      }
      var bot := new ChatBot();
      var ok := bot.ConnectToServers(config);
      if !ok {
        return InitFailed;
      }
      bot.userId := Some(userId);
      chatbotSessions := chatbotSessions[userId := bot];
      return Initialized(userId);
    }

    /** `send_message`: authenticate (401), find the session (404), bind
        the bot to the token's user, then ask it. `reply or ""` leaves the
        reply as it is, since `ask` always answers with a string. */
    method SendMessage(authorization: Option<string>, decode: string -> Decoded,
                       sessionId: string, message: string,
                       replies: seq<ModelReply>, callTool: (nat, ToolCall) -> ToolOutcome)
      returns (r: MessageResult)
      modifies if sessionId in chatbotSessions then {chatbotSessions[sessionId]} else {}
      ensures UserIdFromAuth(authorization, decode).Rejected? ==>
        var a := UserIdFromAuth(authorization, decode);
        r == HttpError(a.status, a.detail)
        && (sessionId in chatbotSessions ==> unchanged(chatbotSessions[sessionId]))
      ensures UserIdFromAuth(authorization, decode).Authorized? && sessionId !in chatbotSessions ==>
        r == HttpError(SessionMissing, "Session not found. Initialize with /api/init")
      ensures UserIdFromAuth(authorization, decode).Authorized? && sessionId in chatbotSessions ==>
        var bot := chatbotSessions[sessionId];
        var uid := UserIdFromAuth(authorization, decode).userId;
        var q := Query(old(bot.chatHistory), message, replies, Env(bot.sessions, uid, callTool));
        && bot.userId == uid
        && bot.chatHistory == q.history
        && bot.sessions == old(bot.sessions)
        && bot.availableTools == old(bot.availableTools)
        && bot.availablePrompts == old(bot.availablePrompts)
        && r == (if q.outcome.Replied? then MessageReply(q.outcome.reply) else ServerError)
    {
      var auth := UserIdFromAuth(authorization, decode);
      if auth.Rejected? {
        return HttpError(auth.status, auth.detail);
      }
      r := Converse(sessionId, auth.userId, message, replies, callTool);
    }

    /** The part of `send_message` after authentication: find the session
        (404), bind its bot to `userId`, then ask it. */
    method Converse(sessionId: string, userId: Option<string>, message: string,
                    replies: seq<ModelReply>, callTool: (nat, ToolCall) -> ToolOutcome)
      returns (r: MessageResult)
      modifies if sessionId in chatbotSessions then {chatbotSessions[sessionId]} else {}
      ensures sessionId !in chatbotSessions ==>
        r == HttpError(SessionMissing, "Session not found. Initialize with /api/init")
      ensures sessionId in chatbotSessions ==>
        var bot := chatbotSessions[sessionId];
        var q := Query(old(bot.chatHistory), message, replies, Env(bot.sessions, userId, callTool));
        && bot.userId == userId
        && bot.chatHistory == q.history
        && bot.sessions == old(bot.sessions)
        && bot.availableTools == old(bot.availableTools)
        && bot.availablePrompts == old(bot.availablePrompts)
        && r == (if q.outcome.Replied? then MessageReply(q.outcome.reply) else ServerError)
    {
      if sessionId !in chatbotSessions {
        return HttpError(SessionMissing, "Session not found. Initialize with /api/init");
      }
      var bot := chatbotSessions[sessionId];
      bot.userId := userId;
      var outcome, _ := bot.Ask(message, replies, callTool);
      if outcome.Replied? {
        r := MessageReply(outcome.reply);
      } else {
        r := ServerError;
      }
    }
  }
}

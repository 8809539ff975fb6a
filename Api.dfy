/**
 * The transport layer: message envelopes, channel naming, the reconnect
 * backoff schedule, and the service object that holds the one realtime
 * connection handle and issues REST notifications.
 *
 * The realtime SDK and `fetch` are foreign code: each call is recorded in a
 * ghost trace of calls and its success or failure is an input.
 */
module Api {
  import opened Wrappers
  import opened Strings
  import AppConfig

  datatype MessageType = Chat | System | HandRaise

  /** The chat payload `{text, timestamp, messageType}`. */
  datatype ChatMessage = ChatMessage(text: string, timestamp: nat, messageType: MessageType)

  /** A cursor position; the user fields may be absent. */
  datatype CursorData = CursorData(userId: Option<string>, userName: Option<string>, x: int, y: int, timestamp: nat)

  datatype Content = ChatContent(chat: ChatMessage) | CursorContent(cursor: CursorData)

  /** The envelope `{classId, from, to, type, content}` that is posted and published. */
  datatype Envelope = Envelope(classId: string, from: string, to: string, kind: string, content: Content)

  const ChatType := "chat"
  const CursorType := "cursor"
  const Everyone := "all"
  const UnknownSender := "unknown"

  /** Realtime event names the class channel listens to and publishes on. */
  const ChatEvent := "chat"
  const CursorStreamEvent := "cursor-stream"

  const MaxAttempts := 5
  const BaseDelay := 1000
  const MaxDelay := 30000

  /** A JavaScript string value is truthy: present and non-empty. */
  predicate Truthy(s: Option<string>) {
    s.Some? && s.value != ""
  }

  /** Wraps a chat payload addressed from `from` to `to` in class `classId`. */
  function CreateChatMessage(classId: string, from: string, to: string, message: ChatMessage): (e: Envelope)
    ensures e.kind == ChatType && e.content == ChatContent(message)
    ensures e.classId == classId && e.from == from && e.to == to
  {
    Envelope(classId, from, to, ChatType, ChatContent(message))
  }

  /** Wraps a cursor position; cursor envelopes always go to everyone. */
  function CreateCursorMessage(classId: string, from: string, cursor: CursorData): (e: Envelope)
    ensures e.kind == CursorType && e.to == Everyone && e.content == CursorContent(cursor)
    ensures e.classId == classId && e.from == from
  {
    Envelope(classId, from, Everyone, CursorType, CursorContent(cursor))
  }

  /** The sender recorded for a cursor position: its user id, or "unknown" when that is missing or empty. */
  function CursorSender(cursor: CursorData): (from: string)
    ensures from != ""
    ensures Truthy(cursor.userId) ==> from == cursor.userId.value
    ensures !Truthy(cursor.userId) ==> from == UnknownSender
  {
    if Truthy(cursor.userId) then cursor.userId.value else UnknownSender
  }

  /** The realtime channel of a class: the configured prefix followed by the class id. */
  function ChannelName(prefix: string, classId: string): (name: string)
    ensures StartsWith(name, prefix) && name[|prefix|..] == classId
  {
    prefix + classId
  }

  /** Under one prefix, one class id always names one channel, and different ids name different channels. */
  lemma ChannelNameInjective(prefix: string, a: string, b: string)
    ensures ChannelName(prefix, a) == ChannelName(prefix, b) <==> a == b
  {
    if ChannelName(prefix, a) == ChannelName(prefix, b) {
      assert a == ChannelName(prefix, a)[|prefix|..];
    }
  }

  function Pow2(n: nat): (r: nat)
    ensures r >= 1
  {
    if n == 0 then 1 else 2 * Pow2(n - 1)
  }

  lemma {:induction false} Pow2Monotone(a: nat, b: nat)
    requires a <= b
    ensures Pow2(a) <= Pow2(b)
  {
    if a < b {
      Pow2Monotone(a, b - 1);
    }
  }

  /** The wait before reconnect attempt `attempt`: 1000 * 2^attempt ms, capped at 30000 ms. */
  function ReconnectDelay(attempt: nat): (ms: nat)
    ensures ms <= MaxDelay && ms <= BaseDelay * Pow2(attempt)
    ensures ms == MaxDelay || ms == BaseDelay * Pow2(attempt)
  {
    if BaseDelay * Pow2(attempt) < MaxDelay then BaseDelay * Pow2(attempt) else MaxDelay
  }

  /** From the fifth attempt on the wait is the cap. */
  lemma ReconnectDelayCapped(attempt: nat)
    requires attempt >= MaxAttempts
    ensures ReconnectDelay(attempt) == MaxDelay
  {
    Pow2Monotone(MaxAttempts, attempt);
  }

  /** A later attempt never waits less. */
  lemma ReconnectDelayMonotone(a: nat, b: nat)
    requires a <= b
    ensures ReconnectDelay(a) <= ReconnectDelay(b)
  {
    Pow2Monotone(a, b);
  }

  /** The waits of a full run from the default first attempt. */
  lemma ReconnectScheduleFromFirstAttempt()
    ensures [ReconnectDelay(1), ReconnectDelay(2), ReconnectDelay(3), ReconnectDelay(4), ReconnectDelay(5)]
         == [2000, 4000, 8000, 16000, 30000]
  {
    assert Pow2(4) == 16;
  }

  /** How many tries a reconnect run that starts at `attempt` makes at most. */
  function Tries(attempt: nat): (n: nat)
    ensures n >= 1
    ensures attempt >= 1 ==> n <= MaxAttempts
  {
    if attempt >= MaxAttempts then 1 else MaxAttempts - attempt + 1
  }

  /** Outcome of the `i`-th connection try when `connects` lists them in order; a missing entry is a failure. */
  predicate Connects(connects: seq<bool>, i: nat) {
    i < |connects| && connects[i]
  }

  datatype ApiError = KeyNotConfigured | ConnectionFailed | NotInitialized | ChannelFailed | HttpFailed

  /** The realtime client handle, created with the client id it first connected with. */
  datatype Connection = Connection(clientId: string)

  datatype Channel = Channel(name: string)

  /** JSON bodies of the REST calls. */
  datatype Body =
    | MembershipBody(classId: string, studentId: string, studentName: string)
    | EnvelopeBody(envelope: Envelope)
    | ToggleBody(classId: string, teacherId: string, teacherName: string, enabled: bool)

  /** One call into the realtime SDK or one HTTP request. */
  datatype Call =
    | Connect(clientId: string)
    | Subscribe(channel: string, events: seq<string>)
    | Unsubscribe(channel: string)
    | Close
    | Publish(channel: string, event: string, envelope: Envelope)
    | Post(url: string, body: Body)

  class ApiService {
    const baseUrl: string
    const config: AppConfig.Config
    /** The realtime connection handle, or null. */
    var ably: Option<Connection>
    /** Every SDK call and HTTP request issued so far, in order. */
    ghost var trace: seq<Call>

    constructor (baseUrl: string, config: AppConfig.Config)
      ensures this.baseUrl == baseUrl && this.config == config
      ensures ably == None && trace == []
    {
      this.baseUrl := baseUrl;
      this.config := config;
      ably := None;
      trace := [];
    }

    /** The channel of a class under this service's configured prefix. */
    function ClassChannel(classId: string): string
    {
      ChannelName(config.channelPrefix, classId)
    }

    /**
     * Returns the existing handle untouched; otherwise rejects an empty key
     * before creating anything, and otherwise creates the handle and waits
     * for the connection. The handle is stored before the outcome is known,
     * so a failed connection leaves it in place.
     */
    method InitializeAbly(clientId: string, connects: bool) returns (r: Result<Connection, ApiError>)
      modifies this
      ensures old(ably).Some? ==> r == Success(old(ably).value) && ably == old(ably) && trace == old(trace)
      ensures old(ably).None? && config.ablyApiKey == "" ==>
                r == Failure(KeyNotConfigured) && ably == None && trace == old(trace)
      ensures old(ably).None? && config.ablyApiKey != "" ==>
                && ably == Some(Connection(clientId))
                && trace == old(trace) + [Connect(clientId)]
                && r == (if connects then Success(Connection(clientId)) else Failure(ConnectionFailed))
    {
      if ably.Some? {
        return Success(ably.value);
      }
      if config.ablyApiKey == "" {
        return Failure(KeyNotConfigured);
      }
      ably := Some(Connection(clientId));
      trace := trace + [Connect(clientId)];
      if connects {
        r := Success(ably.value);
      } else {
        r := Failure(ConnectionFailed);
      }
    }

    /** Listens for chat and cursor-stream events on the class channel; needs a handle. */
    method SubscribeToClassChannel(classId: string, ok: bool) returns (r: Result<Channel, ApiError>)
      modifies this`trace
      ensures old(ably).None? ==> r == Failure(NotInitialized) && trace == old(trace)
      ensures old(ably).Some? ==>
                && trace == old(trace) + [Subscribe(ClassChannel(classId), [ChatEvent, CursorStreamEvent])]
                && r == (if ok then Success(Channel(ClassChannel(classId))) else Failure(ChannelFailed))
    {
      if ably.None? {
        return Failure(NotInitialized);
      }
      var name := ChannelName(config.channelPrefix, classId);
      trace := trace + [Subscribe(name, [ChatEvent, CursorStreamEvent])];
      if ok {
        r := Success(Channel(name));
      } else {
        r := Failure(ChannelFailed);
      }
    }

    /** Stops listening on the class channel; without a handle it silently does nothing. */
    method UnsubscribeFromClassChannel(classId: string, ok: bool) returns (r: Outcome<ApiError>)
      modifies this`trace
      ensures old(ably).None? ==> r == Pass && trace == old(trace)
      ensures old(ably).Some? ==>
                trace == old(trace) + [Unsubscribe(ClassChannel(classId))] && r == (if ok then Pass else Fail(ChannelFailed))
    {
      if ably.None? {
        return Pass;
      }
      var name := ChannelName(config.channelPrefix, classId);
      trace := trace + [Unsubscribe(name)];
      r := if ok then Pass else Fail(ChannelFailed);
    }

    /** Closes and forgets the handle; without one it does nothing. */
    method DisconnectAbly()
      modifies this
      ensures ably == None
      ensures trace == old(trace) + (if old(ably).Some? then [Close] else [])
    {
      if ably.Some? {
        trace := trace + [Close];
        ably := None;
      }
    }

    /** Posts a chat envelope to the backend. */
    method SendChatMessage(message: Envelope, ok: bool) returns (r: Outcome<ApiError>)
      modifies this`trace
      ensures trace == old(trace) + [Post(baseUrl + AppConfig.ChatEndpoint, EnvelopeBody(message))]
      ensures r == if ok then Pass else Fail(HttpFailed)
    {
      trace := trace + [Post(baseUrl + AppConfig.ChatEndpoint, EnvelopeBody(message))];
      r := if ok then Pass else Fail(HttpFailed);
    }

    /** Publishes a cursor position on the class channel; needs a handle. */
    method SendCursorDataViaAbly(classId: string, cursor: CursorData, ok: bool) returns (r: Outcome<ApiError>)
      modifies this`trace
      ensures old(ably).None? ==> r == Fail(NotInitialized) && trace == old(trace)
      ensures old(ably).Some? ==>
                && trace == old(trace) + [Publish(ClassChannel(classId), CursorStreamEvent,
                                                  CreateCursorMessage(classId, CursorSender(cursor), cursor))]
                && r == (if ok then Pass else Fail(ChannelFailed))
    {
      if ably.None? {
        return Fail(NotInitialized);
      }
      var name := ChannelName(config.channelPrefix, classId);
      var message := CreateCursorMessage(classId, CursorSender(cursor), cursor);
      trace := trace + [Publish(name, CursorStreamEvent, message)];
      r := if ok then Pass else Fail(ChannelFailed);
    }

    method NotifyStudentJoin(classId: string, studentId: string, studentName: string, ok: bool) returns (r: Outcome<ApiError>)
      modifies this`trace
      ensures trace == old(trace) + [Post(baseUrl + AppConfig.JoinEndpoint, MembershipBody(classId, studentId, studentName))]
      ensures r == if ok then Pass else Fail(HttpFailed)
    {
      trace := trace + [Post(baseUrl + AppConfig.JoinEndpoint, MembershipBody(classId, studentId, studentName))];
      r := if ok then Pass else Fail(HttpFailed);
    }

    method ToggleCursorStream(classId: string, teacherId: string, teacherName: string, enabled: bool, ok: bool)
      returns (r: Outcome<ApiError>)
      modifies this`trace
      ensures trace == old(trace) + [Post(baseUrl + AppConfig.ToggleCursorEndpoint, ToggleBody(classId, teacherId, teacherName, enabled))]
      ensures r == if ok then Pass else Fail(HttpFailed)
    {
      trace := trace + [Post(baseUrl + AppConfig.ToggleCursorEndpoint, ToggleBody(classId, teacherId, teacherName, enabled))];
      r := if ok then Pass else Fail(HttpFailed);
    }

    method NotifyStudentLeave(classId: string, studentId: string, studentName: string, ok: bool) returns (r: Outcome<ApiError>)
      modifies this`trace
      ensures trace == old(trace) + [Post(baseUrl + AppConfig.LeaveEndpoint, MembershipBody(classId, studentId, studentName))]
      ensures r == if ok then Pass else Fail(HttpFailed)
    {
      trace := trace + [Post(baseUrl + AppConfig.LeaveEndpoint, MembershipBody(classId, studentId, studentName))];
      r := if ok then Pass else Fail(HttpFailed);
    }

    /**
     * Retries `InitializeAbly` with exponential backoff: try `k` (from 0)
     * waits `ReconnectDelay(attempt + k)` and then connects; after a failure
     * another try follows only while the attempt number is below 5.
     * `delays` lists the waits in order and `connected` says whether a try
     * succeeded. Because a failed connection keeps its handle, the try after
     * it returns that handle: with a configured key at most two tries happen.
     */
    method ReconnectAbly(clientId: string, attempt: nat, connects: seq<bool>) returns (delays: seq<nat>, connected: bool)
      modifies this
      ensures 1 <= |delays| <= Tries(attempt)
      ensures forall k :: 0 <= k < |delays| ==> delays[k] == ReconnectDelay(attempt + k)
      ensures !connected ==> |delays| == Tries(attempt)
      ensures old(ably).Some? ==> connected && |delays| == 1 && ably == old(ably) && trace == old(trace)
      ensures old(ably).None? && config.ablyApiKey == "" ==> !connected && ably == None && trace == old(trace)
      ensures old(ably).None? && config.ablyApiKey != "" ==>
                && ably == Some(Connection(clientId))
                && trace == old(trace) + [Connect(clientId)]
                && connected == (Connects(connects, 0) || attempt < MaxAttempts)
                && |delays| == (if Connects(connects, 0) || attempt >= MaxAttempts then 1 else 2)
    {
      delays := [];
      connected := false;
      var a := attempt;
      var done := false;
      var last := if attempt >= MaxAttempts then attempt else MaxAttempts;
      while !done
        invariant attempt <= a <= last
        invariant |delays| == a - attempt + (if done then 1 else 0)
        invariant forall k :: 0 <= k < |delays| ==> delays[k] == ReconnectDelay(attempt + k)
        invariant !done ==> !connected
        invariant done && !connected ==> a >= MaxAttempts
        invariant old(ably).Some? ==> ably == old(ably) && trace == old(trace) && a == attempt && (done ==> connected)
        invariant old(ably).None? && config.ablyApiKey == "" ==> ably == None && trace == old(trace) && !connected
        invariant old(ably).None? && config.ablyApiKey != "" && delays == [] ==> ably == None && trace == old(trace)
        invariant old(ably).None? && config.ablyApiKey != "" && delays != [] ==>
                    && ably == Some(Connection(clientId))
                    && trace == old(trace) + [Connect(clientId)]
                    && (|delays| == 1 && done ==> connected == Connects(connects, 0))
                    && (|delays| == 1 && !done ==> !Connects(connects, 0))
                    && (|delays| >= 2 ==> |delays| == 2 && done && connected && !Connects(connects, 0) && attempt < MaxAttempts)
        decreases last - a, !done
      {
        delays := delays + [ReconnectDelay(a)];
        var r := InitializeAbly(clientId, Connects(connects, |delays| - 1));
        if r.Success? {
          connected := true;
          done := true;
        } else if a < MaxAttempts {
          a := a + 1;
        } else {
          done := true;
        }
      }
    }
  }
}

/**
 * The class membership service: who is in which class, the cache of display
 * names, the normalisation of inbound realtime events into chat messages,
 * and the list of handlers those messages are broadcast to.
 */
module Classroom {
  import opened Wrappers
  import opened Strings
  import opened Api
  import AppConfig

  datatype Role = Teacher | Student

  datatype User = User(id: string, name: string, role: Role)

  /** A normalised message as handed to every registered handler. */
  datatype ReceivedMessage = ReceivedMessage(
    id: string, classId: string, from: string, fromName: string, to: string,
    message: string, timestamp: nat, kind: MessageType)

  /**
   * The `content` object of an inbound event. Each string field may be
   * absent; an absent timestamp is 0 (both are falsy). `textField` is the
   * backend's capitalised `Text` field.
   */
  datatype EventContent = EventContent(
    studentId: Option<string>, studentName: Option<string>, timestamp: nat,
    text: Option<string>, textField: Option<string>, messageType: Option<MessageType>)

  /** An inbound realtime payload `{type, from, to, content}`. */
  datatype Inbound = Inbound(kind: string, from: string, to: string, content: Option<EventContent>)

  /** Identifies one registered handler callback. */
  type HandlerId = nat

  /** One invocation of a handler with a message. */
  datatype Delivery = Delivery(handler: HandlerId, message: ReceivedMessage)

  datatype ServiceError = NotJoined | Transport(error: ApiError)

  const StudentJoinType := "student-join"
  const StudentLeaveType := "student-leave"
  const TeacherPrefix := "teacher-"
  const StudentPrefix := "student-"
  const TeacherName := "Teacher"
  /** What the pages look for in a system message. */
  const JoinedPhrase := "joined the class"
  const LeftPhrase := "left the class"
  const JoinedText := " joined the class"
  const LeftText := " left the class"
  const UnknownStudent := "Unknown Student"
  /** What a template literal prints for a missing value. */
  const Undefined := "undefined"

  function OrEmpty(s: Option<string>): string {
    s.GetOr("")
  }

  /** `${s}` of a value that may be undefined. */
  function Interpolate(s: Option<string>): string {
    s.GetOr(Undefined)
  }

  /** `x || now` for a timestamp: an absent (zero) stamp is replaced by the current time. */
  function StampOr(timestamp: nat, now: nat): nat {
    if timestamp != 0 then timestamp else now
  }

  /** First letter upper-cased, the rest untouched; the empty word stays empty. */
  function Capitalize(word: string): (r: string)
    ensures |r| == |word|
    ensures word != "" ==> r[0] == ToUpperChar(word[0]) && r[1..] == word[1..]
  {
    if word == "" then "" else [ToUpperChar(word[0])] + word[1..]
  }

  function CapitalizeAll(words: seq<string>): (r: seq<string>)
    ensures |r| == |words|
  {
    seq(|words|, i requires 0 <= i < |words| => Capitalize(words[i]))
  }

  /**
   * The display name the chat rule reads off a sender id: "Teacher" for a
   * teacher id; for a student id with at least three hyphen parts, the
   * middle parts capitalised and joined by spaces; otherwise the id itself.
   */
  function DecodeChatName(from: string): string
  {
    if StartsWith(from, TeacherPrefix) then TeacherName
    else if StartsWith(from, StudentPrefix) then
      var parts := Split(from, '-');
      if |parts| >= 3 then Join(CapitalizeAll(parts[1..|parts| - 1]), " ") else from
    else from
  }

  /**
   * The name the join rule gives a joining student: the transmitted name when
   * truthy; otherwise, for a student id, the hyphen parts between the first and
   * the last joined by spaces, then each space-separated word capitalised;
   * otherwise the transmitted (falsy) value.
   */
  function DecodeJoinName(given: Option<string>, studentId: string): Option<string>
  {
    if Truthy(given) then given
    else if studentId != "" && StartsWith(studentId, StudentPrefix) then
      var parts := Split(studentId, '-');
      if |parts| >= 2 then
        Some(Join(CapitalizeAll(Split(Join(parts[1..|parts| - 1], " "), ' ')), " "))
      else given
    else given
  }

  /** A string that starts with `student-` is not a teacher id. */
  lemma StudentIsNotTeacher(id: string)
    requires StartsWith(id, StudentPrefix)
    ensures !StartsWith(id, TeacherPrefix)
  {
    assert id[0] == StudentPrefix[0];
  }

  /** Splitting `student-<rest>` on hyphens gives "student" followed by the parts of `rest`. */
  lemma SplitStudentId(rest: string)
    ensures StartsWith(StudentPrefix + rest, StudentPrefix)
    ensures Split(StudentPrefix + rest, '-') == ["student"] + Split(rest, '-')
  {
    assert StudentPrefix + rest == "student" + ['-'] + rest;
    SplitConcat("student", rest, '-');
    SplitNoSep("student", '-');
  }

  /** The chat rule on a student id with at least three hyphen parts. */
  lemma DecodeChatNameOfStudent(id: string)
    requires StartsWith(id, StudentPrefix) && |Split(id, '-')| >= 3
    ensures DecodeChatName(id) == Join(CapitalizeAll(Split(id, '-')[1..|Split(id, '-')| - 1]), " ")
  {
    StudentIsNotTeacher(id);
  }

  /** The hyphen parts of `student-<slug>-<suffix>`, for a suffix without hyphens. */
  lemma StudentIdParts(slug: string, suffix: string)
    requires '-' !in suffix
    ensures StartsWith(StudentPrefix + slug + "-" + suffix, StudentPrefix)
    ensures Split(StudentPrefix + slug + "-" + suffix, '-') == ["student"] + Split(slug, '-') + [suffix]
  {
    var rest := slug + "-" + suffix;
    assert StudentPrefix + slug + "-" + suffix == StudentPrefix + rest;
    SlugSuffixParts(slug, suffix);
    SplitStudentId(rest);
    assert ["student"] + (Split(slug, '-') + [suffix]) == ["student"] + Split(slug, '-') + [suffix];
  }

  /** The hyphen parts of `<slug>-<suffix>`: the slug's parts, then the suffix. */
  lemma SlugSuffixParts(slug: string, suffix: string)
    requires '-' !in suffix
    ensures Split(slug + "-" + suffix, '-') == Split(slug, '-') + [suffix]
  {
    assert slug + "-" + suffix == slug + ['-'] + suffix;
    SplitConcat(slug, suffix, '-');
    SplitNoSep(suffix, '-');
  }

  /** An id built as `student-<slug>-<suffix>` decodes to the slug's hyphen parts, capitalised and joined by spaces. */
  lemma DecodeStudentId(slug: string, suffix: string)
    requires '-' !in suffix
    ensures DecodeChatName(StudentPrefix + slug + "-" + suffix) == Join(CapitalizeAll(Split(slug, '-')), " ")
  {
    var id := StudentPrefix + slug + "-" + suffix;
    StudentIdParts(slug, suffix);
    var parts := Split(id, '-');
    assert parts[1..|parts| - 1] == Split(slug, '-');
    DecodeChatNameOfStudent(id);
  }

  /** An uncached teacher id always shows as "Teacher". */
  lemma DecodeTeacherId(suffix: string)
    ensures DecodeChatName(TeacherPrefix + suffix) == TeacherName
  {
    assert (TeacherPrefix + suffix)[..|TeacherPrefix|] == TeacherPrefix;
  }

  /**
   * For a student id without spaces and with at least three hyphen parts,
   * the join rule and the chat rule give the same name.
   */
  lemma JoinRuleAgreesWithChatRule(studentId: string)
    requires StartsWith(studentId, StudentPrefix)
    requires ' ' !in studentId
    requires |Split(studentId, '-')| >= 3
    ensures DecodeJoinName(None, studentId) == Some(DecodeChatName(studentId))
  {
    var parts := Split(studentId, '-');
    var middle := parts[1..|parts| - 1];
    SplitPartsAvoid(studentId, '-', ' ');
    assert forall i :: 0 <= i < |middle| ==> ' ' !in middle[i] by {
      forall i | 0 <= i < |middle| ensures ' ' !in middle[i] {
        assert middle[i] == parts[i + 1];
      }
    }
    SplitJoin(middle, ' ');
    StudentIsNotTeacher(studentId);
  }

  /**
   * For a two-part student id `student-<word>` the rules differ: the join rule
   * yields an empty name, the chat rule the raw id.
   */
  lemma TwoPartStudentIdRulesDiffer(word: string)
    requires '-' !in word
    ensures DecodeJoinName(None, StudentPrefix + word) == Some("")
    ensures DecodeChatName(StudentPrefix + word) == StudentPrefix + word
  {
    var id := StudentPrefix + word;
    SplitStudentId(word);
    StudentIsNotTeacher(id);
    SplitNoSep(word, '-');
    var parts := Split(id, '-');
    assert parts == ["student", word];
    assert parts[1..|parts| - 1] == [];
    assert Split("", ' ') == [""];
    assert CapitalizeAll([""]) == [""];
  }

  /** The display name of a chat sender: a truthy cached name, else the name decoded from the id. */
  function ChatDisplayName(names: map<string, string>, from: string): string
  {
    if from in names && names[from] != "" then names[from] else DecodeChatName(from)
  }

  /** The cache after resolving a chat sender: a freshly decoded name is stored when it is non-empty. */
  function NamesAfterChat(names: map<string, string>, from: string): map<string, string>
  {
    if from in names && names[from] != "" then names
    else if DecodeChatName(from) != "" then names[from := DecodeChatName(from)]
    else names
  }

  /** A truthy cached name wins and leaves the cache as it is. */
  lemma CachedNameWins(names: map<string, string>, from: string)
    requires from in names && names[from] != ""
    ensures ChatDisplayName(names, from) == names[from]
    ensures NamesAfterChat(names, from) == names
  {
  }

  /**
   * Resolving a sender caches a non-empty name, so every later resolution of
   * that sender gives the same name and leaves the cache unchanged; no other
   * entry is touched.
   */
  lemma ResolvedNameIsStable(names: map<string, string>, from: string)
    ensures var names' := NamesAfterChat(names, from);
      && ChatDisplayName(names', from) == ChatDisplayName(names, from)
      && NamesAfterChat(names', from) == names'
      && (ChatDisplayName(names, from) != "" ==> from in names' && names'[from] == ChatDisplayName(names, from))
      && names'.Keys - {from} == names.Keys - {from}
      && forall k :: k in names && k != from ==> names'[k] == names[k]
  {
  }

  /**
   * A sender with no truthy cached name whose id decodes to the empty name is
   * not cached, and the message shows the raw id.
   */
  lemma EmptyDecodedNameIsNotCached(names: map<string, string>, from: string)
    requires DecodeChatName(from) == ""
    requires from !in names || names[from] == ""
    ensures ChatDisplayName(names, from) == ""
    ensures NamesAfterChat(names, from) == names
    ensures SenderName(names, from) == from
  {
  }

  /** Such senders exist: `student--x` decodes to the empty name. */
  lemma EmptyDecodedStudentId()
    ensures DecodeChatName("student--x") == ""
    ensures NamesAfterChat(map[], "student--x") == map[]
    ensures SenderName(map[], "student--x") == "student--x"
  {
    DecodeStudentId("", "x");
    assert StudentPrefix + "" + "-" + "x" == "student--x";
    assert Split("", '-') == [""];
    EmptyDecodedNameIsNotCached(map[], "student--x");
  }

  /** `fromName` of a chat message: the display name, or the raw id when that is empty. */
  function SenderName(names: map<string, string>, from: string): string {
    var name := ChatDisplayName(names, from);
    if name != "" then name else from
  }

  /** The student id of a join event: the transmitted id when truthy, else the event's sender. */
  function JoinStudentId(from: string, c: EventContent): string {
    if Truthy(c.studentId) then c.studentId.value else from
  }

  /** The system message announcing a join event. */
  function JoinMessage(classId: string, from: string, c: EventContent, now: nat, id: string): ReceivedMessage {
    var studentId := JoinStudentId(from, c);
    var name := DecodeJoinName(c.studentName, studentId);
    ReceivedMessage(id, classId, studentId, OrEmpty(name), Everyone, Interpolate(name) + JoinedText,
                    StampOr(c.timestamp, now), System)
  }

  /** The system message announcing a leave event. */
  function LeaveMessage(classId: string, c: EventContent, now: nat, id: string): ReceivedMessage {
    ReceivedMessage(id, classId, OrEmpty(c.studentId), OrEmpty(c.studentName), Everyone,
                    Interpolate(c.studentName) + LeftText, StampOr(c.timestamp, now), System)
  }

  /** The text of a chat event: `text`, else the backend's `Text`. */
  function ChatText(c: EventContent): string {
    if Truthy(c.text) then c.text.value else OrEmpty(c.textField)
  }

  /** The message built from a chat event, its sender name resolved against `names`. */
  function ChatEventMessage(classId: string, names: map<string, string>, data: Inbound, c: EventContent,
                            now: nat, id: string): ReceivedMessage {
    ReceivedMessage(id, classId, data.from, SenderName(names, data.from), data.to, ChatText(c),
                    StampOr(c.timestamp, now), c.messageType.GetOr(Chat))
  }

  /** An announcement built from any name mentions the phrase it ends with. */
  lemma AnnouncementMentions(name: string)
    ensures Contains(name + JoinedText, JoinedPhrase)
    ensures Contains(name + LeftText, LeftPhrase)
  {
    assert name + JoinedText == (name + " ") + JoinedPhrase;
    assert name + LeftText == (name + " ") + LeftPhrase;
    ContainsSuffix(name + " ", JoinedPhrase);
    ContainsSuffix(name + " ", LeftPhrase);
  }

  /** `x || 'Unknown Student'`. */
  function NameOrUnknown(fromName: string): string {
    if fromName != "" then fromName else UnknownStudent
  }

  /** Every handler receives the message once, in registration order. */
  function Broadcast(handlers: seq<HandlerId>, m: ReceivedMessage): (r: seq<Delivery>)
    ensures |r| == |handlers|
  {
    seq(|handlers|, i requires 0 <= i < |handlers| => Delivery(handlers[i], m))
  }

  /** The deliveries of an optional message: a broadcast when there is one, nothing otherwise. */
  function Deliveries(handlers: seq<HandlerId>, m: Option<ReceivedMessage>): (r: seq<Delivery>)
    ensures m.None? ==> r == []
    ensures m.Some? ==> |r| == |handlers| && forall i :: 0 <= i < |r| ==> r[i] == Delivery(handlers[i], m.value)
  {
    if m.Some? then Broadcast(handlers, m.value) else []
  }

  function Repeat<T>(x: T, n: nat): (r: seq<T>)
    ensures |r| == n && forall i :: 0 <= i < n ==> r[i] == x
  {
    seq(n, _ => x)
  }

  /** How often `x` occurs in `s`. */
  function Count<T(==)>(s: seq<T>, x: T): nat {
    if s == [] then 0 else Count(s[..|s| - 1], x) + (if s[|s| - 1] == x then 1 else 0)
  }

  /** `list.splice(list.indexOf(x), 1)` when present: drops the first occurrence only. */
  function RemoveFirst<T(==)>(s: seq<T>, x: T): seq<T> {
    if s == [] then []
    else if s[0] == x then s[1..]
    else [s[0]] + RemoveFirst(s[1..], x)
  }

  lemma {:induction false} RemoveFirstAt<T>(s: seq<T>, i: nat, x: T)
    requires i < |s| && s[i] == x && x !in s[..i]
    ensures RemoveFirst(s, x) == s[..i] + s[i + 1..]
  {
    if i > 0 {
      assert s[0] in s[..i];
      assert s[1..][..i - 1] == s[1..i];
      RemoveFirstAt(s[1..], i - 1, x);
      assert s[..i] == [s[0]] + s[1..i];
    }
  }

  /** Removing a handler that is not registered leaves the list unchanged. */
  lemma {:induction false} RemoveFirstAbsent<T>(s: seq<T>, x: T)
    requires x !in s
    ensures RemoveFirst(s, x) == s
  {
    if s != [] {
      RemoveFirstAbsent(s[1..], x);
    }
  }

  /** Removing takes away exactly one occurrence when there is one, and nothing else. */
  lemma {:induction false} RemoveFirstCount<T>(s: seq<T>, x: T)
    ensures multiset(RemoveFirst(s, x)) == multiset(s) - multiset{x}
    ensures x in s ==> |RemoveFirst(s, x)| == |s| - 1
  {
    if s != [] {
      assert s == [s[0]] + s[1..];
      assert multiset(s) == multiset{s[0]} + multiset(s[1..]);
      if s[0] != x {
        RemoveFirstCount(s[1..], x);
        assert multiset(RemoveFirst(s, x)) == multiset{s[0]} + multiset(RemoveFirst(s[1..], x));
      }
    }
  }

  /** Registering a new handler and removing it again restores the list. */
  lemma {:induction false} RemoveAfterRegister<T>(s: seq<T>, x: T)
    requires x !in s
    ensures RemoveFirst(s + [x], x) == s
  {
    RemoveFirstAt(s + [x], |s|, x);
    assert (s + [x])[..|s|] == s;
  }

  /** `list.indexOf(x)`: the first position holding `x`, or -1. */
  method IndexOf<T(==)>(s: seq<T>, x: T) returns (i: int)
    ensures -1 <= i < |s|
    ensures i == -1 <==> x !in s
    ensures i >= 0 ==> s[i] == x && x !in s[..i]
  {
    i := 0;
    while i < |s|
      invariant 0 <= i <= |s|
      invariant x !in s[..i]
    {
      if s[i] == x {
        return;
      }
      assert s[..i + 1] == s[..i] + [s[i]];
      i := i + 1;
    }
    assert s[..i] == s;
    i := -1;
  }

  class ClassService {
    const api: ApiService
    var currentClassId: Option<string>
    var currentUser: Option<User>
    var messageHandlers: seq<HandlerId>
    var ablyChannel: Option<Channel>
    /** Display names by user id; a name the source stores as undefined is stored as "". */
    var userDisplayNames: map<string, string>
    /** Every handler invocation so far, in order. */
    ghost var delivered: seq<Delivery>

    constructor (api: ApiService)
      ensures this.api == api
      ensures currentClassId == None && currentUser == None && ablyChannel == None
      ensures messageHandlers == [] && userDisplayNames == map[] && delivered == []
    {
      this.api := api;
      currentClassId := None;
      currentUser := None;
      messageHandlers := [];
      ablyChannel := None;
      userDisplayNames := map[];
      delivered := [];
    }

    /** Connected: a class and a user are set (non-null). */
    function IsConnected(): (b: bool)
      reads this
      ensures b <==> currentClassId != None && currentUser != None
    {
      currentClassId.Some? && currentUser.Some?
    }

    /** The truthiness guard of leaving, sending and event handling: a non-empty class id and a user. */
    predicate Joined()
      reads this
    {
      currentClassId.Some? && currentClassId.value != "" && currentUser.Some?
    }

    /** The connection step of a join succeeds: a handle exists, or a key is configured and connecting works. */
    predicate InitSucceeds(connects: bool)
      reads this, api
    {
      api.ably.Some? || (api.config.ablyApiKey != "" && connects)
    }

    /**
     * The realtime and backend calls a join makes, in order: connect when no
     * handle exists and a key is configured, subscribe once connected, notify
     * the backend once subscribed.
     */
    function JoinCalls(classId: string, user: User, connects: bool, subscribes: bool): seq<Call>
      reads this, api
    {
      (if api.ably.None? && api.config.ablyApiKey != "" then [Connect(user.id)] else [])
      + (if InitSucceeds(connects) then [Subscribe(api.ClassChannel(classId), [ChatEvent, CursorStreamEvent])] else [])
      + (if InitSucceeds(connects) && subscribes
         then [Post(api.baseUrl + AppConfig.JoinEndpoint, MembershipBody(classId, user.id, user.name))]
         else [])
    }

    /**
     * The backend and realtime calls a leave makes, in order: when joined, the
     * leave notification; once it is accepted and while a handle exists, the
     * unsubscribe; once that succeeds, closing the connection.
     */
    function LeaveCalls(notifies: bool, unsubscribes: bool): seq<Call>
      reads this, api
    {
      if Joined() then
        [Post(api.baseUrl + AppConfig.LeaveEndpoint,
              MembershipBody(currentClassId.value, currentUser.value.id, currentUser.value.name))]
        + (if notifies && api.ably.Some?
           then [Unsubscribe(api.ClassChannel(currentClassId.value))] + (if unsubscribes then [Close] else [])
           else [])
      else []
    }

    /** The connection handle after a leave: dropped once the leave reached the disconnect step. */
    function AblyAfterLeave(notifies: bool, unsubscribes: bool): Option<Connection>
      reads this, api
    {
      if Joined() && notifies && (unsubscribes || api.ably.None?) then None else api.ably
    }

    /** The request a send makes: when joined, one POST of the chat envelope from the current user. */
    function SendCalls(message: string, to: string, messageType: MessageType, now: nat): seq<Call>
      reads this, api
    {
      if Joined() then
        [Post(api.baseUrl + AppConfig.ChatEndpoint,
              EnvelopeBody(CreateChatMessage(currentClassId.value, currentUser.value.id, to,
                                             ChatMessage(message, now, messageType))))]
      else []
    }

    /** The local copy a send broadcasts once the POST is accepted: from the current user, in the current class. */
    function Echo(message: string, to: string, messageType: MessageType, now: nat, freshId: string): Option<ReceivedMessage>
      reads this
    {
      if Joined() then
        Some(ReceivedMessage(freshId, currentClassId.value, currentUser.value.id, currentUser.value.name, to,
                             message, now, messageType))
      else None
    }

    /**
     * Records the class and user and caches the user's name before any
     * network step, so they stay set when a later step fails; then connects,
     * subscribes to the class channel and notifies the backend, stopping at
     * the first failure.
     */
    method JoinClass(classId: string, user: User, connects: bool, subscribes: bool, notifies: bool)
      returns (r: Outcome<ServiceError>)
      modifies this, api
      ensures currentClassId == Some(classId) && currentUser == Some(user) && IsConnected()
      ensures userDisplayNames == old(userDisplayNames)[user.id := user.name]
      ensures messageHandlers == old(messageHandlers) && delivered == old(delivered)
      ensures api.ably == (if old(api.ably).None? && api.config.ablyApiKey != "" then Some(Connection(user.id)) else old(api.ably))
      ensures api.trace == old(api.trace) + old(JoinCalls(classId, user, connects, subscribes))
      ensures ablyChannel == (if old(InitSucceeds(connects)) && subscribes then Some(Channel(api.ClassChannel(classId))) else old(ablyChannel))
      ensures r == Pass <==> old(InitSucceeds(connects)) && subscribes && notifies
    {
      currentClassId := Some(classId);
      currentUser := Some(user);
      userDisplayNames := userDisplayNames[user.id := user.name];

      var handle := api.InitializeAbly(user.id, connects);
      if handle.Failure? {
        return Fail(Transport(handle.error));
      }
      var channel := api.SubscribeToClassChannel(classId, subscribes);
      if channel.Failure? {
        return Fail(Transport(channel.error));
      }
      ablyChannel := Some(channel.value);
      var notified := api.NotifyStudentJoin(classId, user.id, user.name, notifies);
      if notified.Fail? {
        return Fail(Transport(notified.error));
      }
      r := Pass;
    }

    /**
     * When joined, notifies the backend first and only then unsubscribes and
     * disconnects (a failure skips the rest); in every case clears the class,
     * the user, the channel and the name cache.
     */
    method LeaveClass(notifies: bool, unsubscribes: bool)
      modifies this, api
      ensures currentClassId == None && currentUser == None && ablyChannel == None && userDisplayNames == map[]
      ensures !IsConnected()
      ensures messageHandlers == old(messageHandlers) && delivered == old(delivered)
      ensures api.trace == old(api.trace) + old(LeaveCalls(notifies, unsubscribes))
      ensures api.ably == old(AblyAfterLeave(notifies, unsubscribes))
    {
      if Joined() {
        var classId := currentClassId.value;
        var user := currentUser.value;
        var notified := api.NotifyStudentLeave(classId, user.id, user.name, notifies);
        if notified.Pass? {
          var unsubscribed := api.UnsubscribeFromClassChannel(classId, unsubscribes);
          if unsubscribed.Pass? {
            api.DisconnectAbly();
          }
        }
      }
      currentClassId := None;
      currentUser := None;
      ablyChannel := None;
      userDisplayNames := map[];
    }

    /**
     * Normalises one inbound event while joined. A join event caches the
     * student's name and announces the join; a leave event announces the leave
     * and forgets the name; a chat event resolves the sender's name. The
     * announcement or chat message is broadcast unless it comes from the
     * current user. Other events, and every event while not joined, change
     * nothing.
     */
    method HandleAblyMessage(data: Inbound, now: nat, freshId: string) returns (emitted: Option<ReceivedMessage>)
      modifies this`userDisplayNames, this`delivered
      ensures delivered == old(delivered) + (if emitted.Some? then Broadcast(messageHandlers, emitted.value) else [])
      ensures !old(Joined()) || data.content.None? || data.kind !in {StudentJoinType, StudentLeaveType, ChatType} ==>
                emitted == None && userDisplayNames == old(userDisplayNames)
      ensures old(Joined()) && data.content.Some? && data.kind == StudentJoinType ==>
                var m := JoinMessage(old(currentClassId).value, data.from, data.content.value, now, freshId);
                && userDisplayNames == old(userDisplayNames)[m.from := m.fromName]
                && emitted == (if m.from != old(currentUser).value.id then Some(m) else None)
      ensures old(Joined()) && data.content.Some? && data.kind == StudentLeaveType ==>
                var c := data.content.value;
                && userDisplayNames == (if c.studentId.Some? then old(userDisplayNames) - {c.studentId.value} else old(userDisplayNames))
                && emitted == (if c.studentId.None? || c.studentId.value != old(currentUser).value.id
                               then Some(LeaveMessage(old(currentClassId).value, c, now, freshId)) else None)
      ensures old(Joined()) && data.content.Some? && data.kind == ChatType ==>
                && userDisplayNames == NamesAfterChat(old(userDisplayNames), data.from)
                && emitted == (if data.from != old(currentUser).value.id
                               then Some(ChatEventMessage(old(currentClassId).value, old(userDisplayNames), data,
                                                          data.content.value, now, freshId))
                               else None)
    {
      emitted := None;
      if data.kind == StudentJoinType && data.content.Some? && Joined() {
        var m := JoinMessage(currentClassId.value, data.from, data.content.value, now, freshId);
        userDisplayNames := userDisplayNames[m.from := m.fromName];
        if m.from != currentUser.value.id {
          EmitMessage(m);
          emitted := Some(m);
        }
        return;
      }
      if data.kind == StudentLeaveType && data.content.Some? && Joined() {
        var c := data.content.value;
        if c.studentId.None? || c.studentId.value != currentUser.value.id {
          var m := LeaveMessage(currentClassId.value, c, now, freshId);
          EmitMessage(m);
          emitted := Some(m);
        }
        if c.studentId.Some? {
          userDisplayNames := userDisplayNames - {c.studentId.value};
        }
        return;
      }
      if data.kind == ChatType && data.content.Some? && Joined() {
        var m := ChatEventMessage(currentClassId.value, userDisplayNames, data, data.content.value, now, freshId);
        userDisplayNames := NamesAfterChat(userDisplayNames, data.from);
        if m.from != currentUser.value.id {
          EmitMessage(m);
          emitted := Some(m);
        }
      }
    }

    /**
     * Refuses when not joined; otherwise posts the chat envelope and, once
     * it is accepted, broadcasts exactly one local copy carrying the current
     * user's id and name and the requested message type.
     */
    method SendMessage(message: string, to: string, messageType: MessageType, now: nat, posts: bool, freshId: string)
      returns (r: Outcome<ServiceError>, emitted: Option<ReceivedMessage>)
      modifies this`delivered, api`trace
      ensures delivered == old(delivered) + (if emitted.Some? then Broadcast(messageHandlers, emitted.value) else [])
      ensures api.trace == old(api.trace) + SendCalls(message, to, messageType, now)
      ensures r == (if !Joined() then Fail(NotJoined) else if posts then Pass else Fail(Transport(HttpFailed)))
      ensures emitted == (if posts then Echo(message, to, messageType, now, freshId) else None)
      ensures emitted.Some? ==> r == Pass && emitted.value.from == currentUser.value.id
                                && emitted.value.fromName == currentUser.value.name && emitted.value.kind == messageType
    {
      if !Joined() {
        return Fail(NotJoined), None;
      }
      var classId := currentClassId.value;
      var user := currentUser.value;
      var envelope := CreateChatMessage(classId, user.id, to, ChatMessage(message, now, messageType));
      var sent := api.SendChatMessage(envelope, posts);
      if sent.Fail? {
        return Fail(Transport(sent.error)), None;
      }
      var local := ReceivedMessage(freshId, classId, user.id, user.name, to, message, now, messageType);
      EmitMessage(local);
      r, emitted := Pass, Some(local);
    }

    /** Registers a handler at the end of the list (duplicates allowed). */
    method OnMessageReceived(handler: HandlerId)
      modifies this`messageHandlers
      ensures messageHandlers == old(messageHandlers) + [handler]
    {
      messageHandlers := messageHandlers + [handler];
    }

    /** Unregisters the first registration of `handler`; an unknown handler changes nothing. */
    method RemoveMessageHandler(handler: HandlerId)
      modifies this`messageHandlers
      ensures messageHandlers == RemoveFirst(old(messageHandlers), handler)
    {
      var index := IndexOf(messageHandlers, handler);
      if index > -1 {
        RemoveFirstAt(messageHandlers, index, handler);
        messageHandlers := messageHandlers[..index] + messageHandlers[index + 1..];
      } else {
        RemoveFirstAbsent(messageHandlers, handler);
      }
    }

    /**
     * Calls every registered handler with `m`, in registration order. Each
     * call is guarded, so a handler that throws does not keep the later
     * ones from being called.
     */
    method EmitMessage(m: ReceivedMessage)
      modifies this`delivered
      ensures delivered == old(delivered) + Broadcast(messageHandlers, m)
    {
      var i := 0;
      while i < |messageHandlers|
        invariant 0 <= i <= |messageHandlers|
        invariant delivered == old(delivered) + Broadcast(messageHandlers[..i], m)
      {
        delivered := delivered + [Delivery(messageHandlers[i], m)];
        i := i + 1;
      }
      assert messageHandlers[..i] == messageHandlers;
    }
  }
}

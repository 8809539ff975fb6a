/**
 * The student page: joins the class under a typed-in name, keeps the list
 * of chat messages it has seen, sends chat and raise-hand messages, and
 * shows a notification for other students' joins and leaves.
 */
module StudentView {
  import opened Wrappers
  import opened Strings
  import opened Api
  import opened Classroom
  import AppConfig

  const EmptyNameError := "Please enter your name"
  const JoinFailedError := "Failed to join class"
  const SendFailedError := "Failed to send message"
  const RaiseFailedError := "Failed to raise hand"
  const HandRaisedText := "\U{1F590}\U{FE0F} Hand raised"
  const JoinedAsNotice := "\U{2705} You joined the class as "

  predicate IsSlugChar(c: char) {
    'a' <= c <= 'z' || '0' <= c <= '9'
  }

  /** A digit of `Number.prototype.toString(36)`. */
  predicate IsBase36Digit(c: char) {
    'a' <= c <= 'z' || '0' <= c <= '9'
  }

  /** Lower-cased, with every character outside `[a-z0-9]` replaced by a hyphen. */
  function Sanitize(s: string): (r: string)
    ensures |r| == |s|
  {
    seq(|s|, i requires 0 <= i < |s| => if IsSlugChar(ToLowerChar(s[i])) then ToLowerChar(s[i]) else '-')
  }

  /** The id a student gets for a typed-in name and a random base-36 suffix. */
  function StudentId(name: string, suffix: string): string {
    StudentPrefix + Sanitize(Trim(name)) + "-" + suffix
  }

  /**
   * Decoding a student id with the service's chat rule gives back the
   * sanitised name split on hyphens, each part capitalised, joined by spaces.
   */
  lemma StudentNameRoundTrip(name: string, suffix: string)
    requires forall i :: 0 <= i < |suffix| ==> IsBase36Digit(suffix[i])
    ensures DecodeChatName(StudentId(name, suffix)) == Join(CapitalizeAll(Split(Sanitize(Trim(name)), '-')), " ")
  {
    assert '-' !in suffix by {
      forall i | 0 <= i < |suffix| ensures suffix[i] != '-' {
        assert IsBase36Digit(suffix[i]);
      }
    }
    DecodeStudentId(Sanitize(Trim(name)), suffix);
  }

  /** A generated id holds no space: every character is a slug character or a hyphen. */
  lemma StudentIdHasNoSpace(name: string, suffix: string)
    requires forall i :: 0 <= i < |suffix| ==> IsBase36Digit(suffix[i])
    ensures ' ' !in StudentId(name, suffix)
  {
    var slug := Sanitize(Trim(name));
    assert ' ' !in slug by {
      forall i | 0 <= i < |slug| ensures slug[i] != ' ' {
      }
    }
    assert ' ' !in suffix by {
      forall i | 0 <= i < |suffix| ensures suffix[i] != ' ' {
        assert IsBase36Digit(suffix[i]);
      }
    }
    assert StudentId(name, suffix) == StudentPrefix + slug + "-" + suffix;
  }

  /**
   * When a join event carries no name, the service's join rule names the
   * student exactly as its chat rule does, for every generated id.
   */
  lemma GeneratedIdRulesAgree(name: string, suffix: string)
    requires forall i :: 0 <= i < |suffix| ==> IsBase36Digit(suffix[i])
    ensures DecodeJoinName(None, StudentId(name, suffix)) == Some(DecodeChatName(StudentId(name, suffix)))
  {
    var slug := Sanitize(Trim(name));
    assert '-' !in suffix by {
      forall i | 0 <= i < |suffix| ensures suffix[i] != '-' {
        assert IsBase36Digit(suffix[i]);
      }
    }
    StudentIdParts(slug, suffix);
    StudentIdHasNoSpace(name, suffix);
    JoinRuleAgreesWithChatRule(StudentId(name, suffix));
  }

  predicate IsAlphanumeric(c: char) {
    'a' <= c <= 'z' || 'A' <= c <= 'Z' || '0' <= c <= '9'
  }

  /** A one-word ASCII name comes back lower-cased with its first letter capitalised. */
  lemma {:induction false} OneWordNameRoundTrip(name: string, suffix: string)
    requires name != [] && forall i :: 0 <= i < |name| ==> IsAlphanumeric(name[i])
    requires forall i :: 0 <= i < |suffix| ==> IsBase36Digit(suffix[i])
    ensures DecodeChatName(StudentId(name, suffix)) == Capitalize(ToLower(name))
  {
    TrimNoBlankEnds(name);
    assert Sanitize(name) == ToLower(name) by {
      forall i | 0 <= i < |name| ensures Sanitize(name)[i] == ToLower(name)[i] {
        assert IsAlphanumeric(name[i]);
      }
    }
    assert '-' !in ToLower(name) by {
      forall i | 0 <= i < |name| ensures ToLower(name)[i] != '-' {
        assert IsAlphanumeric(name[i]);
      }
    }
    SplitNoSep(ToLower(name), '-');
    StudentNameRoundTrip(name, suffix);
  }

  /** The handler keeps a message when a student exists and it is not the student's own. */
  predicate Accepts(student: Option<User>, m: ReceivedMessage) {
    student.Some? && m.from != student.value.id
  }

  /** The notification a kept message raises: a system message mentioning a join or a leave. */
  function Notice(m: ReceivedMessage): Option<string> {
    if m.kind != System then None
    else if Contains(m.message, JoinedPhrase) then Some("\U{1F44B} " + NameOrUnknown(m.fromName) + " joined the class")
    else if Contains(m.message, LeftPhrase) then Some("\U{1F44B} " + NameOrUnknown(m.fromName) + " left the class")
    else None
  }

  /** The service's join announcement makes a student's page show who joined. */
  lemma JoinAnnouncementNotice(classId: string, from: string, c: EventContent, now: nat, id: string)
    ensures var m := JoinMessage(classId, from, c, now, id);
      Notice(m) == Some("\U{1F44B} " + NameOrUnknown(m.fromName) + " joined the class")
  {
    AnnouncementMentions(Interpolate(DecodeJoinName(c.studentName, JoinStudentId(from, c))));
  }

  class StudentPage {
    const service: ClassService
    /** This page's `handleChatMessage` as registered with the service. */
    const handler: HandlerId
    const classId: string
    var messages: seq<ReceivedMessage>
    var newMessage: string
    var teacherCursor: Option<CursorData>
    var isConnected: bool
    var connectionError: Option<string>
    var studentName: string
    var hasJoinedClass: bool
    var notification: Option<string>
    var student: Option<User>

    /** The page's student, when there is one, is the service's current user or the service has none. */
    predicate Valid()
      reads this, service
    {
      student.Some? ==> service.currentUser == student || service.currentUser == None
    }

    constructor (service: ClassService, handler: HandlerId)
      ensures this.service == service && this.handler == handler && classId == AppConfig.DefaultClassId
      ensures messages == [] && newMessage == "" && teacherCursor == None && !isConnected
      ensures connectionError == None && studentName == "" && !hasJoinedClass && notification == None
      ensures student == None && Valid()
    {
      this.service := service;
      this.handler := handler;
      classId := AppConfig.DefaultClassId;
      messages := [];
      newMessage := "";
      teacherCursor := None;
      isConnected := false;
      connectionError := None;
      studentName := "";
      hasJoinedClass := false;
      notification := None;
      student := None;
    }

    /** Appends a message unless there is no student or it is the student's own; announces joins and leaves. */
    method HandleChatMessage(m: ReceivedMessage)
      modifies this`messages, this`notification
      ensures messages == old(messages) + (if Accepts(student, m) then [m] else [])
      ensures notification == (if Accepts(student, m) && Notice(m).Some? then Notice(m) else old(notification))
    {
      if student.Some? && m.from != student.value.id {
        messages := messages + [m];
        var notice := Notice(m);
        if notice.Some? {
          notification := notice;
        }
      }
    }

    /** The service handing `m` to this page's handler once per registration of it. */
    method Dispatch(m: ReceivedMessage)
      modifies this`messages, this`notification
      ensures var n := Count(service.messageHandlers, handler);
        && messages == old(messages) + (if Accepts(student, m) then Repeat(m, n) else [])
        && notification == (if n > 0 && Accepts(student, m) && Notice(m).Some? then Notice(m) else old(notification))
    {
      var handlers := service.messageHandlers;
      var i := 0;
      while i < |handlers|
        invariant 0 <= i <= |handlers|
        invariant var n := Count(handlers[..i], handler);
          && messages == old(messages) + (if Accepts(student, m) then Repeat(m, n) else [])
          && notification == (if n > 0 && Accepts(student, m) && Notice(m).Some? then Notice(m) else old(notification))
      {
        assert handlers[..i + 1][..i] == handlers[..i];
        if handlers[i] == handler {
          HandleChatMessage(m);
        }
        i := i + 1;
      }
      assert handlers[..i] == handlers;
    }

    /**
     * A blank name only reports an error. Otherwise the student is created
     * from the trimmed name and joins; on success the page registers its
     * handler and records the join, on failure it forgets the student.
     */
    method JoinClass(name: string, suffix: string, connects: bool, subscribes: bool, notifies: bool)
      requires Valid()
      modifies this, service, service.api
      ensures Valid()
      ensures messages == old(messages) && newMessage == old(newMessage) && teacherCursor == old(teacherCursor)
      ensures Trim(name) == "" ==>
        && connectionError == Some(EmptyNameError)
        && student == old(student) && isConnected == old(isConnected) && hasJoinedClass == old(hasJoinedClass)
        && studentName == old(studentName) && notification == old(notification)
        && unchanged(service) && unchanged(service.api)
      ensures Trim(name) != "" ==>
        var user := User(StudentId(name, suffix), Trim(name), Classroom.Student);
        var joined := old(service.InitSucceeds(connects)) && subscribes && notifies;
        && service.api.trace == old(service.api.trace) + old(service.JoinCalls(classId, user, connects, subscribes))
        && service.api.ably == old(if service.api.ably.None? && service.api.config.ablyApiKey != ""
                                   then Some(Connection(user.id)) else service.api.ably)
        && service.ablyChannel == old(if service.InitSucceeds(connects) && subscribes
                                      then Some(Channel(service.api.ClassChannel(classId))) else service.ablyChannel)
        && service.userDisplayNames == old(service.userDisplayNames)[user.id := user.name]
        && service.delivered == old(service.delivered)
        && service.currentUser == Some(user) && service.currentClassId == Some(classId)
        && service.messageHandlers == old(service.messageHandlers) + (if joined then [handler] else [])
        && (joined ==>
              && student == Some(user) && isConnected && hasJoinedClass && connectionError == None
              && studentName == Trim(name) && notification == Some(JoinedAsNotice + Trim(name)))
        && (!joined ==>
              && student == None && !isConnected && connectionError == Some(JoinFailedError)
              && hasJoinedClass == old(hasJoinedClass) && studentName == old(studentName)
              && notification == old(notification))
    {
      if Trim(name) == "" {
        connectionError := Some(EmptyNameError);
        return;
      }
      JoinAs(User(StudentId(name, suffix), Trim(name), Classroom.Student), connects, subscribes, notifies);
    }

    /** The steps of a join once the student record exists. */
    method JoinAs(user: User, connects: bool, subscribes: bool, notifies: bool)
      requires Valid()
      modifies this, service, service.api
      ensures Valid()
      ensures messages == old(messages) && newMessage == old(newMessage) && teacherCursor == old(teacherCursor)
      ensures service.api.trace == old(service.api.trace) + old(service.JoinCalls(classId, user, connects, subscribes))
      ensures service.api.ably == old(if service.api.ably.None? && service.api.config.ablyApiKey != ""
                                      then Some(Connection(user.id)) else service.api.ably)
      ensures service.ablyChannel == old(if service.InitSucceeds(connects) && subscribes
                                         then Some(Channel(service.api.ClassChannel(classId))) else service.ablyChannel)
      ensures service.userDisplayNames == old(service.userDisplayNames)[user.id := user.name]
      ensures service.delivered == old(service.delivered)
      ensures var joined := old(service.InitSucceeds(connects)) && subscribes && notifies;
        && service.currentUser == Some(user) && service.currentClassId == Some(classId)
        && service.messageHandlers == old(service.messageHandlers) + (if joined then [handler] else [])
        && (joined ==>
              && student == Some(user) && isConnected && hasJoinedClass && connectionError == None
              && studentName == user.name && notification == Some(JoinedAsNotice + user.name))
        && (!joined ==>
              && student == None && !isConnected && connectionError == Some(JoinFailedError)
              && hasJoinedClass == old(hasJoinedClass) && studentName == old(studentName)
              && notification == old(notification))
    {
      connectionError := None;
      student := Some(user);
      var r := service.JoinClass(classId, user, connects, subscribes, notifies);
      if r.Fail? {
        connectionError := Some(JoinFailedError);
        isConnected := false;
        student := None;
        return;
      }
      Admit(user);
    }

    /** After a successful join: registers the handler and records the student as joined. */
    method Admit(user: User)
      modifies this`isConnected, this`hasJoinedClass, this`studentName, this`notification, service`messageHandlers
      ensures service.messageHandlers == old(service.messageHandlers) + [handler]
      ensures isConnected && hasJoinedClass && studentName == user.name && notification == Some(JoinedAsNotice + user.name)
    {
      service.OnMessageReceived(handler);
      isConnected := true;
      hasJoinedClass := true;
      studentName := user.name;
      notification := Some(JoinedAsNotice + user.name);
    }

    /**
     * Sends the draft as a chat message to everyone. Nothing happens without
     * a student or with a blank draft. The draft is cleared first; on success
     * exactly one entry carrying the student's id and name is appended (the
     * service's echo of it is the student's own and is ignored), on failure
     * the draft is restored and an error is shown.
     */
    method SendMessage(now: nat, posts: bool, serviceId: string, localId: string)
      requires Valid()
      modifies this, service`delivered, service.api`trace
      ensures Valid()
      ensures old(student) == None || Trim(old(newMessage)) == "" ==>
        && messages == old(messages) && newMessage == old(newMessage) && connectionError == old(connectionError)
        && notification == old(notification) && unchanged(service) && unchanged(service.api)
      ensures old(student).Some? && Trim(old(newMessage)) != "" ==>
        var sent := old(service.Joined()) && posts;
        var local := ReceivedMessage(localId, classId, old(student).value.id, old(student).value.name, Everyone,
                                     old(newMessage), now, Chat);
        && notification == old(notification)
        && service.api.trace == old(service.api.trace) + old(service.SendCalls(newMessage, Everyone, Chat, now))
        && service.delivered == old(service.delivered)
             + Deliveries(service.messageHandlers, if posts then old(service.Echo(newMessage, Everyone, Chat, now, serviceId)) else None)
        && (sent ==> messages == old(messages) + [local] && newMessage == "" && connectionError == old(connectionError))
        && (!sent ==> messages == old(messages) && newMessage == old(newMessage)
                      && connectionError == Some(SendFailedError))
      ensures student == old(student) && isConnected == old(isConnected) && hasJoinedClass == old(hasJoinedClass)
      ensures studentName == old(studentName) && teacherCursor == old(teacherCursor)
    {
      if student.None? || Trim(newMessage) == "" {
        return;
      }
      var messageText := newMessage;
      newMessage := "";
      var r, emitted := service.SendMessage(messageText, Everyone, Chat, now, posts, serviceId);
      if emitted.Some? {
        Dispatch(emitted.value);
      }
      if r.Fail? {
        connectionError := Some(SendFailedError);
        newMessage := messageText;
        return;
      }
      var local := ReceivedMessage(localId, classId, student.value.id, student.value.name, Everyone, messageText, now, Chat);
      messages := messages + [local];
    }

    /** Sends a hand-raise to everyone and, once it is accepted, appends one hand-raise entry. */
    method RaiseHand(now: nat, posts: bool, serviceId: string, localId: string)
      requires Valid()
      modifies this, service`delivered, service.api`trace
      ensures Valid()
      ensures old(student) == None ==>
        messages == old(messages) && connectionError == old(connectionError) && unchanged(service) && unchanged(service.api)
      ensures old(student).Some? ==>
        var sent := old(service.Joined()) && posts;
        var local := ReceivedMessage(localId, classId, old(student).value.id, old(student).value.name, Everyone,
                                     HandRaisedText, now, HandRaise);
        && service.api.trace == old(service.api.trace) + old(service.SendCalls(HandRaisedText, Everyone, HandRaise, now))
        && service.delivered == old(service.delivered)
             + Deliveries(service.messageHandlers, if posts then old(service.Echo(HandRaisedText, Everyone, HandRaise, now, serviceId)) else None)
        && (sent ==> messages == old(messages) + [local] && connectionError == old(connectionError))
        && (!sent ==> messages == old(messages) && connectionError == Some(RaiseFailedError))
      ensures newMessage == old(newMessage) && notification == old(notification)
      ensures student == old(student) && isConnected == old(isConnected) && hasJoinedClass == old(hasJoinedClass)
      ensures studentName == old(studentName) && teacherCursor == old(teacherCursor)
    {
      if student.None? {
        return;
      }
      var r, emitted := service.SendMessage(HandRaisedText, Everyone, HandRaise, now, posts, serviceId);
      if emitted.Some? {
        Dispatch(emitted.value);
      }
      if r.Fail? {
        connectionError := Some(RaiseFailedError);
        return;
      }
      var local := ReceivedMessage(localId, classId, student.value.id, student.value.name, Everyone, HandRaisedText, now, HandRaise);
      messages := messages + [local];
    }

    /** Unregisters the handler, leaves the class and resets the connection state; the message list stays. */
    method LeaveClass(notifies: bool, unsubscribes: bool)
      requires Valid()
      modifies this, service, service.api
      ensures Valid()
      ensures service.messageHandlers == RemoveFirst(old(service.messageHandlers), handler)
      ensures service.currentClassId == None && service.currentUser == None && service.ablyChannel == None
      ensures service.userDisplayNames == map[] && service.delivered == old(service.delivered)
      ensures service.api.trace == old(service.api.trace) + old(service.LeaveCalls(notifies, unsubscribes))
      ensures service.api.ably == old(service.AblyAfterLeave(notifies, unsubscribes))
      ensures !isConnected && teacherCursor == None && connectionError == None
      ensures messages == old(messages) && hasJoinedClass == old(hasJoinedClass) && student == old(student)
      ensures newMessage == old(newMessage) && studentName == old(studentName) && notification == old(notification)
    {
      service.RemoveMessageHandler(handler);
      service.LeaveClass(notifies, unsubscribes);
      isConnected := false;
      teacherCursor := None;
      connectionError := None;
    }
  }
}

/**
 * The teacher page: joins the class as "Teacher", keeps the list of chat
 * messages it has seen and the set of connected students' names, and sends
 * chat messages and announcements.
 */
module TeacherView {
  import opened Wrappers
  import opened Strings
  import opened Api
  import opened Classroom
  import AppConfig

  const AnnouncementNotice := "\U{1F389} "
  const JoinFailedError := "Failed to join class"
  const SendFailedError := "Failed to send message"

  /** The teacher's user record for a random base-36 suffix. */
  function TeacherUser(suffix: string): (u: User)
    ensures StartsWith(u.id, TeacherPrefix) && u.name == TeacherName && u.role == Classroom.Teacher
  {
    assert (TeacherPrefix + suffix)[..|TeacherPrefix|] == TeacherPrefix;
    User(TeacherPrefix + suffix, TeacherName, Classroom.Teacher)
  }

  /** Before any name is cached for it, the teacher's chat is shown as "Teacher". */
  lemma TeacherChatShowsTeacher(names: map<string, string>, suffix: string)
    requires TeacherUser(suffix).id !in names || names[TeacherUser(suffix).id] == ""
    ensures ChatDisplayName(names, TeacherUser(suffix).id) == TeacherName
    ensures SenderName(names, TeacherUser(suffix).id) == TeacherName
  {
    DecodeTeacherId(suffix);
  }

  /**
   * The roster after the teacher's handler sees `m`. Own messages change
   * nothing. A system message adds the sender name (or "Unknown Student") when
   * it mentions a join, and otherwise removes it when it mentions a leave; any
   * other message from a student id adds its non-empty sender name.
   */
  function RosterAfter(roster: set<string>, teacherId: string, m: ReceivedMessage): set<string>
  {
    if m.from == teacherId then roster
    else if m.kind == System then
      if Contains(m.message, JoinedPhrase) then roster + {NameOrUnknown(m.fromName)}
      else if Contains(m.message, LeftPhrase) then roster - {NameOrUnknown(m.fromName)}
      else roster
    else if StartsWith(m.from, StudentPrefix) && m.fromName != "" then roster + {m.fromName}
    else roster
  }

  /** The notification the teacher sees for a message from someone else. */
  function TeacherNotice(m: ReceivedMessage): Option<string> {
    if m.kind != System then None
    else if Contains(m.message, JoinedPhrase) then Some(AnnouncementNotice + NameOrUnknown(m.fromName) + " joined the class")
    else if Contains(m.message, LeftPhrase) then Some("\U{1F44B} " + NameOrUnknown(m.fromName) + " left the class")
    else None
  }

  /**
   * The roster only ever gains or loses the one name a message carries;
   * the teacher's own messages leave it alone, and handling the same message
   * twice has the effect of handling it once.
   */
  lemma RosterChangesOneName(roster: set<string>, teacherId: string, m: ReceivedMessage)
    ensures var r := RosterAfter(roster, teacherId, m);
      && (m.from == teacherId ==> r == roster)
      && (r == roster || r == roster + {NameOrUnknown(m.fromName)} || r == roster - {NameOrUnknown(m.fromName)})
      && RosterAfter(r, teacherId, m) == r
  {
  }

  /** The service's join announcement of another user adds the announced name to the roster. */
  lemma JoinAnnouncementAddsStudent(roster: set<string>, teacherId: string,
                                    classId: string, from: string, c: EventContent, now: nat, id: string)
    requires JoinMessage(classId, from, c, now, id).from != teacherId
    ensures var m := JoinMessage(classId, from, c, now, id);
      RosterAfter(roster, teacherId, m) == roster + {NameOrUnknown(m.fromName)}
  {
    AnnouncementMentions(Interpolate(DecodeJoinName(c.studentName, JoinStudentId(from, c))));
  }

  /** A system message from someone else that mentions a leave and no join removes the sender name. */
  lemma LeaveNoticeRemovesName(roster: set<string>, teacherId: string, m: ReceivedMessage)
    requires m.from != teacherId && m.kind == System
    requires Contains(m.message, LeftPhrase) && !Contains(m.message, JoinedPhrase)
    ensures RosterAfter(roster, teacherId, m) == roster - {NameOrUnknown(m.fromName)}
  {
  }

  /**
   * The service's leave announcement of another user removes the announced
   * name, as long as the text does not also mention a join: the join check
   * comes first.
   */
  lemma LeaveAnnouncementRemovesStudent(roster: set<string>, teacherId: string,
                                        classId: string, c: EventContent, now: nat, id: string)
    requires LeaveMessage(classId, c, now, id).from != teacherId
    requires !Contains(LeaveMessage(classId, c, now, id).message, JoinedPhrase)
    ensures var m := LeaveMessage(classId, c, now, id);
      RosterAfter(roster, teacherId, m) == roster - {NameOrUnknown(m.fromName)}
  {
    AnnouncementMentions(Interpolate(c.studentName));
    LeaveNoticeRemovesName(roster, teacherId, LeaveMessage(classId, c, now, id));
  }

  /** A student whose name itself mentions a join is added, not removed, when announced as leaving. */
  lemma LeaveOfJoinNamedStudentAddsName(roster: set<string>, teacherId: string, classId: string, now: nat, id: string)
    requires teacherId != "s1"
    ensures var c := EventContent(Some("s1"), Some(JoinedPhrase), 0, None, None, None);
      RosterAfter(roster, teacherId, LeaveMessage(classId, c, now, id)) == roster + {JoinedPhrase}
  {
    var c := EventContent(Some("s1"), Some(JoinedPhrase), 0, None, None, None);
    var m := LeaveMessage(classId, c, now, id);
    assert m.message[..|JoinedPhrase|] == JoinedPhrase;
  }

  /** A chat message from a student adds the sender's resolved name. */
  lemma StudentChatAddsSender(roster: set<string>, teacherId: string, names: map<string, string>,
                              classId: string, data: Inbound, c: EventContent, now: nat, id: string)
    requires StartsWith(data.from, StudentPrefix) && data.from != teacherId
    requires c.messageType != Some(System)
    ensures var m := ChatEventMessage(classId, names, data, c, now, id);
      RosterAfter(roster, teacherId, m) == roster + {SenderName(names, data.from)}
  {
    assert data.from != "";
  }

  class TeacherPage {
    const service: ClassService
    /** This page's `handleChatMessage` as registered with the service. */
    const handler: HandlerId
    const teacher: User
    const classId: string
    var messages: seq<ReceivedMessage>
    var newMessage: string
    var connectedStudents: set<string>
    var cursors: map<string, CursorData>
    var isConnected: bool
    var connectionError: Option<string>
    var notification: Option<string>

    /** The service is either unjoined or joined as this page's teacher. */
    predicate Valid()
      reads this, service
    {
      service.currentUser == None || service.currentUser == Some(teacher)
    }

    constructor (service: ClassService, handler: HandlerId, suffix: string)
      requires service.currentUser == None
      ensures this.service == service && this.handler == handler && teacher == TeacherUser(suffix)
      ensures classId == AppConfig.DefaultClassId
      ensures messages == [] && newMessage == "" && connectedStudents == {} && cursors == map[]
      ensures !isConnected && connectionError == None && notification == None
      ensures Valid()
    {
      this.service := service;
      this.handler := handler;
      teacher := TeacherUser(suffix);
      classId := AppConfig.DefaultClassId;
      messages := [];
      newMessage := "";
      connectedStudents := {};
      cursors := map[];
      isConnected := false;
      connectionError := None;
      notification := None;
    }

    /** Appends every message not sent by the teacher and keeps the roster in step with it. */
    method HandleChatMessage(m: ReceivedMessage)
      modifies this`messages, this`connectedStudents, this`notification
      ensures messages == old(messages) + (if m.from != teacher.id then [m] else [])
      ensures connectedStudents == RosterAfter(old(connectedStudents), teacher.id, m)
      ensures notification == (if m.from != teacher.id && TeacherNotice(m).Some? then TeacherNotice(m) else old(notification))
    {
      if m.from != teacher.id {
        messages := messages + [m];
        if m.kind == System {
          if Contains(m.message, JoinedPhrase) {
            var name := NameOrUnknown(m.fromName);
            connectedStudents := connectedStudents + {name};
            notification := Some(AnnouncementNotice + name + " joined the class");
          } else if Contains(m.message, LeftPhrase) {
            var name := NameOrUnknown(m.fromName);
            connectedStudents := connectedStudents - {name};
            notification := Some("\U{1F44B} " + name + " left the class");
          }
        } else if StartsWith(m.from, StudentPrefix) && m.fromName != "" {
          connectedStudents := connectedStudents + {m.fromName};
        }
      }
    }

    /** The service handing `m` to this page's handler once per registration of it. */
    method Dispatch(m: ReceivedMessage)
      modifies this`messages, this`connectedStudents, this`notification
      ensures var n := Count(service.messageHandlers, handler);
        && messages == old(messages) + (if m.from != teacher.id then Repeat(m, n) else [])
        && connectedStudents == (if n > 0 then RosterAfter(old(connectedStudents), teacher.id, m) else old(connectedStudents))
        && notification == (if n > 0 && m.from != teacher.id && TeacherNotice(m).Some? then TeacherNotice(m) else old(notification))
    {
      var handlers := service.messageHandlers;
      var i := 0;
      while i < |handlers|
        invariant 0 <= i <= |handlers|
        invariant var n := Count(handlers[..i], handler);
          && messages == old(messages) + (if m.from != teacher.id then Repeat(m, n) else [])
          && connectedStudents == (if n > 0 then RosterAfter(old(connectedStudents), teacher.id, m) else old(connectedStudents))
          && notification == (if n > 0 && m.from != teacher.id && TeacherNotice(m).Some? then TeacherNotice(m) else old(notification))
      {
        assert handlers[..i + 1][..i] == handlers[..i];
        if handlers[i] == handler {
          RosterChangesOneName(old(connectedStudents), teacher.id, m);
          HandleChatMessage(m);
        }
        i := i + 1;
      }
      assert handlers[..i] == handlers;
    }

    /** Joins as the teacher; on success registers the handler and records the connection. */
    method JoinClass(connects: bool, subscribes: bool, notifies: bool)
      requires Valid()
      modifies this, service, service.api
      ensures Valid()
      ensures service.currentUser == Some(teacher) && service.currentClassId == Some(classId)
      ensures service.api.trace == old(service.api.trace) + old(service.JoinCalls(classId, teacher, connects, subscribes))
      ensures service.api.ably == old(if service.api.ably.None? && service.api.config.ablyApiKey != ""
                                      then Some(Connection(teacher.id)) else service.api.ably)
      ensures service.ablyChannel == old(if service.InitSucceeds(connects) && subscribes
                                         then Some(Channel(service.api.ClassChannel(classId))) else service.ablyChannel)
      ensures service.userDisplayNames == old(service.userDisplayNames)[teacher.id := teacher.name]
      ensures service.delivered == old(service.delivered)
      ensures var joined := old(service.InitSucceeds(connects)) && subscribes && notifies;
        && service.messageHandlers == old(service.messageHandlers) + (if joined then [handler] else [])
        && isConnected == joined
        && connectionError == (if joined then None else Some(JoinFailedError))
      ensures messages == old(messages) && newMessage == old(newMessage) && connectedStudents == old(connectedStudents)
      ensures cursors == old(cursors) && notification == old(notification)
    {
      connectionError := None;
      var r := service.JoinClass(classId, teacher, connects, subscribes, notifies);
      if r.Fail? {
        connectionError := Some(JoinFailedError);
        isConnected := false;
        return;
      }
      service.OnMessageReceived(handler);
      isConnected := true;
    }

    /**
     * Sends the draft as a chat message to everyone. A blank draft does
     * nothing. The draft is cleared first; on success exactly one entry with
     * the teacher's id and name is appended (the service's echo of it is the
     * teacher's own and is ignored), on failure the draft is restored and an
     * error is shown.
     */
    method SendMessage(now: nat, posts: bool, serviceId: string, localId: string)
      requires Valid()
      modifies this, service`delivered, service.api`trace
      ensures Valid()
      ensures Trim(old(newMessage)) == "" ==>
        && messages == old(messages) && newMessage == old(newMessage) && connectionError == old(connectionError)
        && unchanged(service) && unchanged(service.api)
      ensures Trim(old(newMessage)) != "" ==>
        var sent := old(service.Joined()) && posts;
        var local := ReceivedMessage(localId, classId, teacher.id, teacher.name, Everyone, old(newMessage), now, Chat);
        && service.api.trace == old(service.api.trace) + old(service.SendCalls(newMessage, Everyone, Chat, now))
        && service.delivered == old(service.delivered)
             + Deliveries(service.messageHandlers, if posts then old(service.Echo(newMessage, Everyone, Chat, now, serviceId)) else None)
        && (sent ==> messages == old(messages) + [local] && newMessage == "" && connectionError == old(connectionError))
        && (!sent ==> messages == old(messages) && newMessage == old(newMessage)
                      && connectionError == Some(SendFailedError))
      ensures connectedStudents == old(connectedStudents) && notification == old(notification)
      ensures cursors == old(cursors) && isConnected == old(isConnected)
    {
      if Trim(newMessage) == "" {
        return;
      }
      var messageText := newMessage;
      newMessage := "";
      var r, emitted := service.SendMessage(messageText, Everyone, Chat, now, posts, serviceId);
      if emitted.Some? {
        Dispatch(emitted.value);
      }
      if r.Fail? {
        connectionError := Some(SendFailedError);
        newMessage := messageText;
        return;
      }
      var local := ReceivedMessage(localId, classId, teacher.id, teacher.name, Everyone, messageText, now, Chat);
      messages := messages + [local];
    }

    /**
     * Sends a system announcement to everyone. A failure is swallowed, and
     * the page's own state never changes: the service's echo is the
     * teacher's own message.
     */
    method SendAnnouncement(announcement: string, now: nat, posts: bool, serviceId: string)
      requires Valid()
      modifies this, service`delivered, service.api`trace
      ensures Valid()
      ensures messages == old(messages) && newMessage == old(newMessage) && connectedStudents == old(connectedStudents)
      ensures cursors == old(cursors) && isConnected == old(isConnected)
      ensures connectionError == old(connectionError) && notification == old(notification)
      ensures service.api.trace == old(service.api.trace) + old(service.SendCalls(announcement, Everyone, System, now))
      ensures service.delivered == old(service.delivered)
                + Deliveries(service.messageHandlers, if posts then old(service.Echo(announcement, Everyone, System, now, serviceId)) else None)
    {
      var r, emitted := service.SendMessage(announcement, Everyone, System, now, posts, serviceId);
      if emitted.Some? {
        Dispatch(emitted.value);
      }
    }

    /** Unregisters the handler, leaves the class, and empties the roster and the cursors; the message list stays. */
    method LeaveClass(notifies: bool, unsubscribes: bool)
      requires Valid()
      modifies this, service, service.api
      ensures Valid()
      ensures service.messageHandlers == RemoveFirst(old(service.messageHandlers), handler)
      ensures service.currentClassId == None && service.currentUser == None && service.ablyChannel == None
      ensures service.userDisplayNames == map[] && service.delivered == old(service.delivered)
      ensures service.api.trace == old(service.api.trace) + old(service.LeaveCalls(notifies, unsubscribes))
      ensures service.api.ably == old(service.AblyAfterLeave(notifies, unsubscribes))
      ensures !isConnected && connectedStudents == {} && cursors == map[] && connectionError == None
      ensures messages == old(messages) && newMessage == old(newMessage) && notification == old(notification)
    {
      service.RemoveMessageHandler(handler);
      service.LeaveClass(notifies, unsubscribes);
      isConnected := false;
      connectedStudents := {};
      cursors := map[];
      connectionError := None;
    }
  }
}

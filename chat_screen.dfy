/** The chat screen's session logic: the socket event handlers, the two user
    intents (send a message, type a key) and the typing timer, as one object
    whose methods each react to a single event. */
module ChatScreen {
  import opened Protocol
  import opened Text
  import opened ChatLogic

  /** The screen's `socket` state: null until the mount effect has created the
      socket, closed by the unmount cleanup. */
  datatype SocketSlot = NoSocket | Live | Closed

  /** Every variable of the session at one instant. */
  datatype SessionView = SessionView(
    socket: SocketSlot,
    isConnected: bool,
    isLoading: bool,
    messages: seq<Message>,
    users: seq<User>,
    typingUsers: seq<string>,
    isTyping: bool,
    newMessage: string,
    timerRef: Option<nat>,
    pendingTimers: set<nat>,
    nextTimer: nat,
    emitted: seq<Outbound>,
    notices: seq<Notice>)

  class ChatSession {
    const fullName: string
    var socket: SocketSlot
    var isConnected: bool
    var isLoading: bool
    var messages: seq<Message>
    var users: seq<User>
    var typingUsers: seq<string>
    /** Local typing intent: Typing when true, Idle when false. */
    var isTyping: bool
    /** The text in the message input. */
    var newMessage: string
    /** The handle last stored in `typingTimeoutRef`; it is not reset when the timer fires. */
    var timerRef: Option<nat>
    /** Handles of the typing timeouts that are scheduled and not yet fired or cleared. */
    var pendingTimers: set<nat>
    /** The handle the next `setTimeout` returns. */
    var nextTimer: nat
    /** Every `socket.emit` call, in order. */
    var emitted: seq<Outbound>
    /** Every `Alert.alert` shown, in order. */
    var notices: seq<Notice>

    ghost function View(): SessionView
      reads this
    {
      SessionView(socket, isConnected, isLoading, messages, users, typingUsers,
                  isTyping, newMessage, timerRef, pendingTimers, nextTimer, emitted, notices)
    }

    /** What every handler preserves: connected only with a socket; no user
        listed twice as typing; at most one typing timeout pending, the one
        whose handle the ref holds; and local Typing never without a pending
        timeout that will end it. */
    ghost predicate Valid()
      reads this
    {
      && (isConnected ==> socket != NoSocket)
      && NoDup(typingUsers)
      && (pendingTimers == {} || (timerRef.Some? && pendingTimers == {timerRef.value}))
      && (timerRef.Some? ==> timerRef.value < nextTimer)
      && (isTyping ==> pendingTimers != {})
    }

    /** The first render: no socket yet, the loading screen shown. */
    constructor (fullName: string)
      ensures Valid() && this.fullName == fullName
      ensures View() == SessionView(NoSocket, false, true, [], [], [], false, "", None, {}, 0, [], [])
    {
      this.fullName := fullName;
      socket := NoSocket;
      isConnected := false;
      isLoading := true;
      messages := [];
      users := [];
      typingUsers := [];
      isTyping := false;
      newMessage := "";
      timerRef := None;
      pendingTimers := {};
      nextTimer := 0;
      emitted := [];
      notices := [];
    }

    /** The mount effect: the socket is created, its handlers registered, and it is stored. */
    method Mount()
      requires Valid() && socket == NoSocket
      modifies this
      ensures Valid() && View() == old(View()).(socket := Live)
    {
      socket := Live;
    }

    /** `connect`: connected, loading over, and `join` sent with the display name. */
    method OnConnect()
      requires Valid() && socket == Live
      modifies this
      ensures Valid()
      ensures View() == old(View()).(isConnected := true, isLoading := false,
                                     emitted := old(emitted) + [Join(fullName)])
    {
      isConnected := true;
      isLoading := false;
      emitted := emitted + [Join(fullName)];
    }

    /** `disconnect`: only the connection flag changes. */
    method OnDisconnect()
      requires Valid() && socket == Live
      modifies this
      ensures Valid() && View() == old(View()).(isConnected := false)
    {
      isConnected := false;
    }

    /** `connect_error`: loading over and the connection-error alert shown;
        the session is never marked connected. */
    method OnConnectError()
      requires Valid() && socket == Live
      modifies this
      ensures Valid()
      ensures View() == old(View()).(isLoading := false, notices := old(notices) + [ConnectionFailed])
    {
      isLoading := false;
      notices := notices + [ConnectionFailed];
    }

    /** `messages`: the list is replaced by the snapshot, whatever it held. */
    method OnMessages(existing: seq<Message>)
      requires Valid() && socket == Live
      modifies this
      ensures Valid() && View() == old(View()).(messages := existing)
    {
      messages := existing;
    }

    /** `message`: exactly one element appended at the end, earlier messages
        kept in order, with no check of the message's id. */
    method OnMessage(message: Message)
      requires Valid() && socket == Live
      modifies this
      ensures Valid()
      ensures |messages| == |old(messages)| + 1
      ensures messages[..|old(messages)|] == old(messages) && messages[|old(messages)|] == message
      ensures View() == old(View()).(messages := messages)
    {
      messages := messages + [message];
    }

    /** `users`: the roster is replaced, not merged. */
    method OnUsers(userList: seq<User>)
      requires Valid() && socket == Live
      modifies this
      ensures Valid() && View() == old(View()).(users := userList)
    {
      users := userList;
    }

    /** `userTyping`: a start moves the user to the end of the list, a stop
        removes every occurrence of the user. */
    method OnUserTyping(user: string, typing: bool)
      requires Valid() && socket == Live
      modifies this
      ensures Valid()
      ensures typing ==> typingUsers == MarkTyping(old(typingUsers), user)
      ensures !typing ==> typingUsers == Without(old(typingUsers), user)
      ensures View() == old(View()).(typingUsers := typingUsers)
    {
      if typing {
        MarkTypingNoDup(typingUsers, user);
        typingUsers := MarkTyping(typingUsers, user);
      } else {
        WithoutNoDup(typingUsers, user);
        typingUsers := Without(typingUsers, user);
      }
    }

    /** `error`: the server's message shown; nothing else changes. */
    method OnError(message: string)
      requires Valid() && socket == Live
      modifies this
      ensures Valid() && View() == old(View()).(notices := old(notices) + [ServerError(message)])
    {
      notices := notices + [ServerError(message)];
    }

    /** `sendMessage`: a no-op unless the trimmed input is non-empty and a
        connected socket exists; otherwise the trimmed text is sent, then
        `typing = false`, the input cleared and the intent set to Idle. The
        pending typing timeout is left as it is. */
    method SendMessage()
      requires Valid() && socket != Closed
      modifies this
      ensures Valid()
      ensures var trimmed := Trim(old(newMessage));
        if trimmed == [] || old(socket) == NoSocket || !old(isConnected) then
          View() == old(View())
        else
          View() == old(View()).(emitted := old(emitted) + [Post(trimmed), Typing(false)],
                                 newMessage := "", isTyping := false)
    {
      var trimmed := Trim(newMessage);
      if trimmed == [] || socket == NoSocket || !isConnected {
        return;
      }
      emitted := emitted + [Post(trimmed)];
      newMessage := "";
      emitted := emitted + [Typing(false)];
      isTyping := false;
    }

    /** `handleTyping`: the input takes the text; `typing = true` is emitted
        only on the Idle to Typing transition; the previous timeout is cleared
        and a fresh one becomes the only pending one. */
    method HandleTyping(text: string)
      requires Valid() && socket != Closed
      modifies this
      ensures Valid()
      ensures View() == old(View()).(
        newMessage := text,
        isTyping := true,
        emitted := old(emitted) + (if !old(isTyping) && old(socket) != NoSocket then [Typing(true)] else []),
        timerRef := Some(old(nextTimer)),
        pendingTimers := {old(nextTimer)},
        nextTimer := old(nextTimer) + 1)
    {
      newMessage := text;
      if !isTyping {
        isTyping := true;
        if socket != NoSocket {
          emitted := emitted + [Typing(true)];
        }
      }
      if timerRef.Some? {
        pendingTimers := pendingTimers - {timerRef.value};
      }
      assert pendingTimers == {};
      timerRef := Some(nextTimer);
      pendingTimers := {nextTimer};
      nextTimer := nextTimer + 1;
    }

    /** The typing timeout `id` fires: it can only be the one the ref holds;
        the intent becomes Idle and `typing = false` is emitted if a socket
        exists, even after the cleanup, which does not clear the timeout. */
    method FireTypingTimeout(id: nat)
      requires Valid() && id in pendingTimers
      modifies this
      ensures old(timerRef) == Some(id)
      ensures Valid()
      ensures View() == old(View()).(
        isTyping := false,
        pendingTimers := {},
        emitted := old(emitted) + (if old(socket) != NoSocket then [Typing(false)] else []))
    {
      pendingTimers := pendingTimers - {id};
      isTyping := false;
      if socket != NoSocket {
        emitted := emitted + [Typing(false)];
      }
    }

    /** The unmount cleanup: the socket is disconnected; nothing else is reset. */
    method Teardown()
      requires Valid() && socket == Live
      modifies this
      ensures Valid() && View() == old(View()).(socket := Closed)
    {
      socket := Closed;
    }
  }

  /** Join, receive a snapshot of two messages, then one pushed message: the
      log holds the three in snapshot-then-push order. */
  method SnapshotThenPushScenario(m1: Message, m2: Message, m3: Message)
    returns (log: seq<Message>, sent: seq<Outbound>)
    ensures log == [m1, m2, m3]
    ensures sent == [Join("Ada Lovelace")]
  {
    var s := new ChatSession("Ada Lovelace");
    s.Mount();
    s.OnConnect();
    s.OnMessages([m1, m2]);
    s.OnMessage(m3);
    log, sent := s.messages, s.emitted;
  }

  /** The same message delivered twice is listed twice. */
  method DuplicateDeliveryScenario(m: Message) returns (log: seq<Message>)
    ensures log == [m, m]
  {
    var s := new ChatSession("Ada Lovelace");
    s.Mount();
    s.OnConnect();
    s.OnMessage(m);
    s.OnMessage(m);
    log := s.messages;
  }

  /** "hello" typed while connected and sent after a disconnect: nothing is
      sent and the input still holds the text. */
  method SendWhileDisconnectedScenario() returns (sent: seq<Outbound>, input: string)
    ensures sent == [Join("Ada Lovelace"), Typing(true)]
    ensures input == "hello"
  {
    var s := new ChatSession("Ada Lovelace");
    s.Mount();
    s.OnConnect();
    s.HandleTyping("hello");
    s.OnDisconnect();
    TrimOfTrimmed("hello");
    s.SendMessage();
    sent, input := s.emitted, s.newMessage;
  }

  /** Two keystrokes and then silence: one `typing = true`, and one
      `typing = false` from the second keystroke's timeout; the first
      keystroke's timeout was cleared and can no longer fire. */
  method TypingBurstScenario() returns (sent: seq<Outbound>, firstCleared: bool)
    ensures sent == [Join("Ada Lovelace"), Typing(true), Typing(false)]
    ensures firstCleared
  {
    var s := new ChatSession("Ada Lovelace");
    s.Mount();
    s.OnConnect();
    s.HandleTyping("h");
    var first := s.timerRef.value;
    s.HandleTyping("he");
    firstCleared := first !in s.pendingTimers;
    s.FireTypingTimeout(s.timerRef.value);
    sent := s.emitted;
  }

  /** Sending does not clear the typing timeout, so `typing = false` is
      emitted once by the send and once more when the timeout fires. */
  method SendThenTimeoutScenario() returns (sent: seq<Outbound>)
    ensures sent == [Join("Ada Lovelace"), Typing(true), Post("hi"), Typing(false), Typing(false)]
  {
    var s := new ChatSession("Ada Lovelace");
    s.Mount();
    s.OnConnect();
    s.HandleTyping("hi");
    TrimOfTrimmed("hi");
    s.SendMessage();
    s.FireTypingTimeout(s.timerRef.value);
    sent := s.emitted;
  }

  /** The cleanup leaves the typing timeout pending: it still fires and
      emits `typing = false` on the disconnected socket. */
  method TimeoutAfterTeardownScenario() returns (sent: seq<Outbound>)
    ensures sent == [Join("Ada Lovelace"), Typing(true), Typing(false)]
  {
    var s := new ChatSession("Ada Lovelace");
    s.Mount();
    s.OnConnect();
    s.HandleTyping("h");
    s.Teardown();
    s.FireTypingTimeout(s.timerRef.value);
    sent := s.emitted;
  }
}

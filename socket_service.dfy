/** The socket service: one object holding at most one socket and a
    connection flag, with guarded helpers that emit on that socket. */
module Services {
  import opened Protocol

  const ServerUrl := "http://192.168.1.239:3000"

  /** An emit: which socket it went out on (sockets are numbered in creation
      order) and the event. */
  datatype Sent = Sent(socket: nat, event: Outbound)

  class SocketService {
    const serverUrl: string
    /** `this.socket`: the number of the socket held, or `None` for null. */
    var socket: Option<nat>
    var isConnected: bool
    /** How many sockets `connect` has created so far. */
    var created: nat
    /** Sockets the service has disconnected; a closed socket delivers no more events. */
    var closed: set<nat>
    /** Every emit made through the service, in order. */
    var emitted: seq<Sent>

    /** Connected only while a socket is held; every socket ever created
        other than the one held has been closed, so the held one is the only
        socket that can still deliver events. */
    ghost predicate Valid()
      reads this
    {
      && (isConnected ==> socket.Some?)
      && (socket.Some? ==> socket.value < created && socket.value !in closed)
      && (forall id :: id in closed ==> id < created)
      && (forall id :: 0 <= id < created && id !in closed ==> socket == Some(id))
    }

    /** A fresh service holds no socket and is not connected. */
    constructor ()
      ensures Valid() && serverUrl == ServerUrl
      ensures socket == None && !isConnected && created == 0 && closed == {} && emitted == []
    {
      serverUrl := ServerUrl;
      socket := None;
      isConnected := false;
      created := 0;
      closed := {};
      emitted := [];
    }

    /** `connect`: returns the socket already held without creating another;
        otherwise creates a new socket, holds it and returns it. The
        connection flag waits for the socket's `connect` event. */
    method Connect() returns (s: nat)
      requires Valid()
      modifies this
      ensures Valid() && socket == Some(s)
      ensures old(socket).Some? ==> s == old(socket).value && created == old(created)
      ensures old(socket).None? ==> s == old(created) && created == old(created) + 1
      ensures isConnected == old(isConnected) && closed == old(closed) && emitted == old(emitted)
    {
      if socket.Some? {
        return socket.value;
      }
      s := created;
      created := created + 1;
      socket := Some(s);
    }

    /** `disconnect`: closes the socket held, then holds none and is not
        connected; without a socket it changes nothing. */
    method Disconnect()
      requires Valid()
      modifies this
      ensures Valid() && socket == None && created == old(created) && emitted == old(emitted)
      ensures old(socket).Some? ==> closed == old(closed) + {old(socket).value} && !isConnected
      ensures old(socket).None? ==> closed == old(closed) && isConnected == old(isConnected)
    {
      if socket.Some? {
        closed := closed + {socket.value};
        socket := None;
        isConnected := false;
      }
    }

    /** The `connect` handler registered on socket `from`, which must not be closed. */
    method OnConnect(from: nat)
      requires Valid() && from < created && from !in closed
      modifies this
      ensures Valid() && isConnected
      ensures socket == old(socket) && created == old(created) && closed == old(closed)
      ensures emitted == old(emitted)
    {
      isConnected := true;
    }

    /** The `disconnect` handler registered on socket `from`. */
    method OnDisconnect(from: nat)
      requires Valid() && from < created && from !in closed
      modifies this
      ensures Valid() && !isConnected
      ensures socket == old(socket) && created == old(created) && closed == old(closed)
      ensures emitted == old(emitted)
    {
      isConnected := false;
    }

    /** `getSocket`. */
    method GetSocket() returns (s: Option<nat>)
      ensures s == socket
    {
      s := socket;
    }

    /** `isSocketConnected`: the flag the `connect` and `disconnect` events set. */
    method IsSocketConnected() returns (connected: bool)
      requires Valid()
      ensures connected == isConnected
      ensures connected ==> socket.Some?
    {
      connected := isConnected;
    }

    /** `joinChat`: emits `join` whenever a socket is held, connected or not. */
    method JoinChat(fullName: string)
      requires Valid()
      modifies this`emitted
      ensures Valid()
      ensures emitted == old(emitted) + (if socket.Some? then [Sent(socket.value, Join(fullName))] else [])
    {
      if socket.Some? {
        emitted := emitted + [Sent(socket.value, Join(fullName))];
      }
    }

    /** `sendMessage`: emits only when a socket is held and connected. */
    method SendMessage(content: string)
      requires Valid()
      modifies this`emitted
      ensures Valid()
      ensures emitted == old(emitted) + (if isConnected then [Sent(socket.value, Post(content))] else [])
    {
      if socket.Some? && isConnected {
        emitted := emitted + [Sent(socket.value, Post(content))];
      }
    }

    /** `sendTypingIndicator`: emits only when a socket is held and connected. */
    method SendTypingIndicator(isTyping: bool)
      requires Valid()
      modifies this`emitted
      ensures Valid()
      ensures emitted == old(emitted) + (if isConnected then [Sent(socket.value, Typing(isTyping))] else [])
    {
      if socket.Some? && isConnected {
        emitted := emitted + [Sent(socket.value, Typing(isTyping))];
      }
    }
  }

  /** Calling `connect` twice creates one socket and returns it both times. */
  method ConnectTwiceScenario() returns (first: nat, second: nat, sockets: nat)
    ensures first == second && sockets == 1
  {
    var service := new SocketService();
    first := service.Connect();
    second := service.Connect();
    sockets := service.created;
  }

  /** Before the socket's `connect` event, `joinChat` emits but `sendMessage`
      and `sendTypingIndicator` do not; after it they do; after `disconnect`
      nothing is emitted and a new `connect` creates a second socket. */
  method GuardedEmitScenario() returns (sent: seq<Sent>, reconnected: nat)
    ensures sent == [Sent(0, Join("Ada")), Sent(0, Post("hi")), Sent(0, Typing(true))]
    ensures reconnected == 1
  {
    var service := new SocketService();
    var s := service.Connect();
    service.SendMessage("early");
    service.SendTypingIndicator(true);
    service.JoinChat("Ada");
    service.OnConnect(s);
    service.SendMessage("hi");
    service.SendTypingIndicator(true);
    service.Disconnect();
    service.JoinChat("Ada");
    service.SendMessage("late");
    sent := service.emitted;
    reconnected := service.Connect();
  }
}

/** The bind path as code that changes a file system: `RuntimeSocketFile`,
    `BoundSocketPath::bind_listener`, the bind loop that pushes guards onto a
    vector, and the guards that run when that vector is dropped. */
module SocketShell {
  import opened SocketFiles
  import opened Wrappers

  class FileSystem {
    var entries: Entries

    constructor (entries: Entries)
      ensures this.entries == entries
    {
      this.entries := entries;
    }

    /** `RuntimeSocketFile::remove_stale_socket`. */
    method RemoveStaleSocket(p: Location, inspectFails: bool, removeFails: bool) returns (error: Option<BindError>)
      modifies this
      ensures error.None? ==> KindAt(entries, p).None? && entries == old(entries) - {p}
      ensures error.Some? ==> entries == old(entries)
      ensures error.None? <==>
        !inspectFails && (KindAt(old(entries), p).None? || (KindAt(old(entries), p) == Some(Socket) && !removeFails))
      ensures error.Some? && error.value.NonSocketPath? ==> KindAt(entries, p) == Some(error.value.found)
      ensures error.Some? ==>
        error.value == if inspectFails || KindAt(entries, p) == Some(Socket) then Io
                       else NonSocketPath(KindAt(entries, p).value)
    {
      if inspectFails {
        return Some(Io);
      }
      match KindAt(entries, p) {
        case None =>
          assert entries == entries - {p};
          error := None;
        case Some(kind) =>
          if !kind.Socket? {
            return Some(NonSocketPath(kind));
          }
          if removeFails {
            return Some(Io);
          }
          entries := entries - {p};
          error := None;
      }
    }

    /** `RuntimeSocketFile::prepare`, after the path was found valid. */
    method PrepareLocation(p: Location, f: Faults) returns (error: Option<BindError>)
      modifies this
      ensures (entries, error) == Prepare(old(entries), p, f)
    {
      var made, left := CreateDirAll(entries, Parent(p), f.mkdirs).0, CreateDirAll(entries, Parent(p), f.mkdirs).1;
      entries := made;
      if left.None? {
        return Some(Io);
      }
      error := RemoveStaleSocket(p, f.inspect, f.remove);
      assert KindAt(made, p).None? ==> made - {p} == made;
    }

    /** `bind_listener`, then `set_nonblocking`. */
    method BindListener(socket: ListenerSocket, f: Faults) returns (attempt: Attempt)
      modifies this
      ensures (entries, attempt) == BindOne(old(entries), socket, f)
    {
      match Locate(socket.path) {
        case Invalid(error) => attempt := Refused(RuntimePath(error));
        case Valid(p) =>
          var failure := PrepareLocation(p, f);
          if failure.Some? {
            return Refused(failure.value);
          }
          if f.bind {
            return Refused(Io);
          }
          entries := entries[p := Socket];
          if f.listen {
            return Refused(Io);
          }
          if socket.hasMode && f.mode {
            return Refused(Io);
          }
          if f.nonblocking {
            return Refused(Io);
          }
          attempt := Guarded(p);
      }
    }

    /** `RuntimeSocketFile::remove_socket_if_current`: nothing but a socket at this
        path goes, and whatever else is there or elsewhere stays as it was. */
    method RemoveSocketIfCurrent(p: Location)
      modifies this
      ensures entries == RemoveIfSocket(old(entries), p)
      ensures forall q :: q in entries <==> q in old(entries) && !(q == p && p != [] && old(entries)[q].Socket?)
      ensures forall q :: q in entries ==> entries[q] == old(entries)[q]
    {
      if KindAt(entries, p) == Some(Socket) {
        entries := entries - {p};
      }
    }

    /** Dropping a vector of bound listeners, front to back. */
    method DropGuards(guards: seq<Location>)
      modifies this
      ensures entries == DropAll(old(entries), guards)
    {
      var i := 0;
      while i < |guards|
        invariant 0 <= i <= |guards|
        invariant DropAll(entries, guards[i..]) == DropAll(old(entries), guards)
      {
        RemoveSocketIfCurrent(guards[i]);
        assert guards[i..][1..] == guards[i + 1..];
        i := i + 1;
      }
    }

    /** `MultiListenerDaemon::bind`. */
    method Bind(sockets: seq<ListenerSocket>, faults: seq<Faults>) returns (result: BindResult)
      requires |faults| == |sockets|
      modifies this
      ensures (entries, result) == BindAll(old(entries), sockets, faults)
    {
      var listeners: seq<Location> := [];
      while |listeners| < |sockets|
        invariant |listeners| <= |sockets|
        invariant BindFrom(entries, sockets, faults, listeners) == BindAll(old(entries), sockets, faults)
        decreases |sockets| - |listeners|
      {
        var k := |listeners|;
        var attempt := BindListener(sockets[k], faults[k]);
        match attempt {
          case Refused(error) =>
            DropGuards(listeners);
            return Failed(k, error);
          case Guarded(p) => listeners := listeners + [p];
        }
      }
      result := Bound(listeners);
    }
  }
}

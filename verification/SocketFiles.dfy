/** src/process.rs and src/daemon.rs: who owns the socket files. Binding a list
    of listeners prepares and binds one path after the other; when one fails,
    the listeners bound so far are dropped and their drop guards remove their
    socket files.

    The file system is a map from locations to kinds, without symlinked
    directories and with nobody else writing. */
module SocketFiles {
  import opened Wrappers

  /** A path as its components: `.` and `..` are components of their own. */
  datatype Component = Normal(name: string) | ParentDir | CurDir

  datatype Path = Path(absolute: bool, components: seq<Component>)

  /** An absolute path without `..`, root first. */
  type Location = seq<string>

  datatype Kind = Socket | RegularFile | Directory | Symlink | Other

  type Entries = map<Location, Kind>

  datatype PathError = Empty | Relative | ParentDirectory

  datatype BindError = RuntimePath(kind: PathError) | NonSocketPath(found: Kind) | Io

  datatype ListenerSocket = ListenerSocket(path: Path, hasMode: bool)

  /** What the operating system refuses while one listener binds: every `mkdir`
      after the first `mkdirs`, and whichever single calls are marked. `listen`
      is the part of `UnixListener::bind` after the file exists. */
  datatype Faults = Faults(mkdirs: nat, inspect: bool, remove: bool, bind: bool, listen: bool, mode: bool,
                           nonblocking: bool)

  // ---------- paths ----------

  datatype Located = Valid(location: Location) | Invalid(error: PathError)

  function NamesOf(components: seq<Component>): Location
  {
    if components == [] then []
    else (if components[0].Normal? then [components[0].name] else []) + NamesOf(components[1..])
  }

  /** `AbsoluteRuntimePath::try_new`. Only the empty path is neither absolute nor
      has a component. */
  function Locate(path: Path): Located
  {
    if !path.absolute && path.components == [] then Invalid(Empty)
    else if !path.absolute then Invalid(Relative)
    else if ParentDir in path.components then Invalid(ParentDirectory)
    else Valid(NamesOf(path.components))
  }

  /** Which paths are accepted, and why the others are not. */
  lemma {:induction false} PathIsValidIff(path: Path)
    ensures Locate(path).Valid? <==> path.absolute && forall i :: 0 <= i < |path.components| ==> !path.components[i].ParentDir?
    ensures Locate(path) == Invalid(Empty) <==> !path.absolute && |path.components| == 0
    ensures Locate(path) == Invalid(Relative) <==> !path.absolute && |path.components| > 0
    ensures Locate(path) == Invalid(ParentDirectory) <==>
      path.absolute && exists i :: 0 <= i < |path.components| && path.components[i].ParentDir?
  {
  }

  lemma {:induction false} NamesCompose(a: seq<Component>, b: seq<Component>)
    ensures NamesOf(a + b) == NamesOf(a) + NamesOf(b)
    decreases |a|
  {
    if a == [] {
      assert a + b == b;
    } else {
      NamesCompose(a[1..], b);
      assert (a + b)[1..] == a[1..] + b;
    }
  }

  lemma {:induction false} NamesAreComponents(components: seq<Component>)
    requires forall i :: 0 <= i < |components| ==> components[i].Normal?
    ensures |NamesOf(components)| == |components|
    ensures forall i :: 0 <= i < |components| ==> NamesOf(components)[i] == components[i].name
    decreases |components|
  {
    if components != [] { NamesAreComponents(components[1..]); }
  }

  /** Where an accepted path leads: along its named components, with a `.` making
      no difference anywhere. */
  lemma {:induction false} LocationFollowsNames(before: seq<Component>, after: seq<Component>)
    requires ParentDir !in before + after
    ensures Locate(Path(true, before + [CurDir] + after)) == Locate(Path(true, before + after))
    ensures (forall i :: 0 <= i < |before| ==> before[i].Normal?) ==>
      var located := Locate(Path(true, before));
      && located.Valid? && |located.location| == |before|
      && forall i :: 0 <= i < |before| ==> located.location[i] == before[i].name
  {
    NamesCompose(before + [CurDir], after);
    NamesCompose(before, [CurDir]);
    NamesCompose(before, after);
    assert NamesOf([CurDir]) == [] by { assert [CurDir][1..] == []; }
    assert ParentDir !in before by {
      assert forall c :: c in before ==> c in before + after;
    }
    assert ParentDir !in before + [CurDir] + after by {
      assert forall c :: c in before + [CurDir] + after ==> c in before + after || c == CurDir;
    }
    if forall i :: 0 <= i < |before| ==> before[i].Normal? {
      NamesAreComponents(before);
    }
  }

  predicate AtOrAbove(a: Location, b: Location)
  {
    a <= b
  }

  predicate ProperAncestor(a: Location, b: Location)
  {
    a < b
  }

  /** The root always exists and is a directory. */
  function KindAt(fs: Entries, p: Location): Option<Kind>
  {
    if p == [] then Some(Directory) else if p in fs then Some(fs[p]) else None
  }

  // ---------- the operations on one path ----------

  /** `fs::create_dir_all`: the missing ancestors, outermost first. */
  function CreateDirAll(fs: Entries, p: Location, mkdirs: nat): (Entries, Option<nat>)
    decreases |p|
  {
    if p == [] then (fs, Some(mkdirs))
    else
      var (above, left) := CreateDirAll(fs, p[..|p| - 1], mkdirs);
      if left.None? then (above, None)
      else if p in above then (above, if above[p].Directory? then left else None)
      else if left.value == 0 then (above, None)
      else (above[p := Directory], Some(left.value - 1))
  }

  function Parent(p: Location): Location
  {
    if p == [] then [] else p[..|p| - 1]
  }

  /** `RuntimeSocketFile::prepare` on a valid path. */
  function Prepare(fs: Entries, p: Location, f: Faults): (Entries, Option<BindError>)
  {
    var (made, left) := CreateDirAll(fs, Parent(p), f.mkdirs);
    if left.None? || f.inspect then (made, Some(Io))
    else
      match KindAt(made, p)
      case None => (made, None)
      case Some(kind) =>
        if !kind.Socket? then (made, Some(NonSocketPath(kind)))
        else if f.remove then (made, Some(Io))
        else (made - {p}, None)
  }

  datatype Attempt = Guarded(location: Location) | Refused(error: BindError)

  predicate FailsAfterBind(socket: ListenerSocket, f: Faults)
  {
    f.listen || (socket.hasMode && f.mode) || f.nonblocking
  }

  /** `bind_listener` followed by `set_nonblocking`. A step that fails after the
      file exists leaves the file behind: no guard owns it yet. */
  function BindOne(fs: Entries, socket: ListenerSocket, f: Faults): (Entries, Attempt)
  {
    match Locate(socket.path)
    case Invalid(error) => (fs, Refused(RuntimePath(error)))
    case Valid(p) =>
      var (prepared, failure) := Prepare(fs, p, f);
      if failure.Some? then (prepared, Refused(failure.value))
      else if f.bind then (prepared, Refused(Io))
      else (prepared[p := Socket], if FailsAfterBind(socket, f) then Refused(Io) else Guarded(p))
  }

  /** `remove_socket_if_current`, the drop guard. */
  function RemoveIfSocket(fs: Entries, p: Location): Entries
  {
    if KindAt(fs, p) == Some(Socket) then fs - {p} else fs
  }

  function DropAll(fs: Entries, guards: seq<Location>): Entries
  {
    if guards == [] then fs else DropAll(RemoveIfSocket(fs, guards[0]), guards[1..])
  }

  datatype BindResult = Bound(guards: seq<Location>) | Failed(index: nat, error: BindError)

  /** The bind loop from the listener after the ones already bound. */
  function BindFrom(fs: Entries, sockets: seq<ListenerSocket>, faults: seq<Faults>, guards: seq<Location>)
    : (Entries, BindResult)
    requires |faults| == |sockets| && |guards| <= |sockets|
    decreases |sockets| - |guards|
  {
    var k := |guards|;
    if k == |sockets| then (fs, Bound(guards))
    else
      var (after, attempt) := BindOne(fs, sockets[k], faults[k]);
      match attempt
      case Refused(error) => (DropAll(after, guards), Failed(k, error))
      case Guarded(p) => BindFrom(after, sockets, faults, guards + [p])
  }

  function BindAll(fs: Entries, sockets: seq<ListenerSocket>, faults: seq<Faults>): (Entries, BindResult)
    requires |faults| == |sockets|
  {
    BindFrom(fs, sockets, faults, [])
  }

  // ---------- what binding may change ----------

  lemma {:induction false} CreateDirAllAdds(fs: Entries, p: Location, mkdirs: nat)
    ensures var (made, left) := CreateDirAll(fs, p, mkdirs);
      && (forall q :: q in fs ==> q in made && made[q] == fs[q])
      && (forall q :: q in made && q !in fs ==> made[q] == Directory && q != [] && AtOrAbove(q, p))
    decreases |p|
  {
    if p != [] {
      var shorter := p[..|p| - 1];
      CreateDirAllAdds(fs, shorter, mkdirs);
      assert shorter <= p;
    }
  }

  predicate IsAncestorOfSome(q: Location, locations: seq<Location>)
  {
    exists i :: 0 <= i < |locations| && ProperAncestor(q, locations[i])
  }

  /** What one listener's bind does to the file system, succeed or fail: new
      directories above its path, and its own path. */
  predicate OnlyTouches(before: Entries, after: Entries, p: Location)
  {
    && (forall q :: q in before && q != p ==> q in after && after[q] == before[q])
    && (forall q :: q in after && q !in before && q != p ==> after[q] == Directory && ProperAncestor(q, p))
    && (p in before && !before[p].Socket? ==> p in after && after[p] == before[p])
    && (p in after && p !in before ==> after[p].Socket?)
    && (p in after && p in before ==> after[p] == before[p])
  }

  lemma PrepareOnlyTouches(fs: Entries, p: Location, f: Faults)
    ensures OnlyTouches(fs, Prepare(fs, p, f).0, p)
    ensures p in Prepare(fs, p, f).0 ==> p in fs
    ensures Prepare(fs, p, f).1.None? ==> p != [] && p !in Prepare(fs, p, f).0 && (p in fs ==> fs[p].Socket?)
  {
    CreateDirAllAdds(fs, Parent(p), f.mkdirs);
    var made := CreateDirAll(fs, Parent(p), f.mkdirs).0;
    assert p in made ==> p in fs;
  }

  lemma BindOneOnlyTouches(fs: Entries, socket: ListenerSocket, f: Faults)
    ensures var (after, attempt) := BindOne(fs, socket, f);
      if Locate(socket.path).Invalid? then
        after == fs && attempt == Refused(RuntimePath(Locate(socket.path).error))
      else
        var own := Locate(socket.path).location;
        && OnlyTouches(fs, after, own)
        && (attempt.Guarded? ==>
              && attempt.location == own != [] && own in after && after[own].Socket?
              && (own in fs ==> fs[own].Socket?))
        && (attempt.Refused? && own in after && own !in fs ==> FailsAfterBind(socket, f))
  {
    if Locate(socket.path).Valid? {
      PrepareOnlyTouches(fs, Locate(socket.path).location, f);
    }
  }

  lemma {:induction false} DropAllRemovesExactly(fs: Entries, guards: seq<Location>)
    ensures var after := DropAll(fs, guards);
      forall q :: (q in after <==> q in fs && !(q in guards && q != [] && fs[q].Socket?)) && (q in after ==> after[q] == fs[q])
    decreases |guards|
  {
    if guards != [] {
      DropAllRemovesExactly(RemoveIfSocket(fs, guards[0]), guards[1..]);
    }
  }

  // ---------- the whole bind loop ----------

  /** The valid locations among the first `count` configured paths. */
  function Locations(sockets: seq<ListenerSocket>, count: nat): seq<Location>
    requires count <= |sockets|
  {
    if count == 0 then []
    else
      var located := Locate(sockets[count - 1].path);
      Locations(sockets, count - 1) + (if located.Valid? then [located.location] else [])
  }

  /** Compared with `before`: the guarded paths hold sockets and held nothing
      else, new entries are directories above configured paths, and the rest is
      as it was. */
  predicate BoundSoFar(before: Entries, now: Entries, guards: seq<Location>, above: seq<Location>)
  {
    && (forall g :: g in guards ==> g != [] && g in now && now[g].Socket? && (g in before ==> before[g].Socket?))
    && (forall q :: q in before && q !in guards ==> q in now && now[q] == before[q])
    && (forall q :: q in now && q !in before && q !in guards ==> now[q] == Directory && IsAncestorOfSome(q, above))
  }

  lemma AncestorsGrow(q: Location, some: seq<Location>, more: seq<Location>)
    requires IsAncestorOfSome(q, some)
    ensures IsAncestorOfSome(q, some + more)
  {
    var i :| 0 <= i < |some| && ProperAncestor(q, some[i]);
    assert ProperAncestor(q, (some + more)[i]);
  }

  lemma AnotherBound(before: Entries, now: Entries, after: Entries, guards: seq<Location>, above: seq<Location>,
                     p: Location)
    requires BoundSoFar(before, now, guards, above)
    requires OnlyTouches(now, after, p) && p != [] && p in after && after[p].Socket? && (p in now ==> now[p].Socket?)
    ensures BoundSoFar(before, after, guards + [p], above + [p])
  {
    forall q | q in after && q !in before && q !in guards + [p]
      ensures after[q] == Directory && IsAncestorOfSome(q, above + [p])
    {
      if q in now {
        AncestorsGrow(q, above, [p]);
      } else {
        assert ProperAncestor(q, (above + [p])[|above|]);
      }
    }
  }

  /** What is left after a bind loop that failed at listener `k`. */
  ghost predicate RolledBack(before: Entries, after: Entries, sockets: seq<ListenerSocket>, k: nat, f: Faults)
    requires k < |sockets|
  {
    var earlier := Locations(sockets, k);
    var own := Locate(sockets[k].path);
    && |earlier| == k
    && (forall g :: g in earlier ==> g !in after)
    && (forall q :: q in before && !before[q].Socket? ==> q in after && after[q] == before[q])
    && (forall q :: q in before && q !in earlier && own != Valid(q) ==> q in after && after[q] == before[q])
    && (forall q :: q in after && q !in before ==>
          (after[q].Directory? && IsAncestorOfSome(q, Locations(sockets, k + 1)))
          || (after[q].Socket? && own == Valid(q) && FailsAfterBind(sockets[k], f)))
  }

  /** `after` is `now` after the failed attempt at listener `k`. */
  predicate FailedAttempt(now: Entries, after: Entries, socket: ListenerSocket, f: Faults)
  {
    if Locate(socket.path).Invalid? then after == now
    else
      var own := Locate(socket.path).location;
      && OnlyTouches(now, after, own)
      && (own in after && own !in now ==> FailsAfterBind(socket, f))
  }

  lemma GuardedPathsVanish(before: Entries, now: Entries, after: Entries, guards: seq<Location>,
                           socket: ListenerSocket, f: Faults)
    requires BoundSoFar(before, now, guards, guards) && FailedAttempt(now, after, socket, f)
    ensures forall g :: g in guards ==> g !in DropAll(after, guards)
    ensures forall q :: q in DropAll(after, guards) ==> q in after && DropAll(after, guards)[q] == after[q]
    ensures forall q :: q in after && q !in guards ==> q in DropAll(after, guards)
  {
    DropAllRemovesExactly(after, guards);
    forall g | g in guards ensures g !in DropAll(after, guards) {
      assert g in now && now[g].Socket?;
      assert g in after ==> after[g] == now[g];
    }
  }

  lemma NewEntryIsExplained(before: Entries, now: Entries, after: Entries, sockets: seq<ListenerSocket>, k: nat,
                            f: Faults, q: Location)
    requires k < |sockets| && |Locations(sockets, k)| == k
    requires BoundSoFar(before, now, Locations(sockets, k), Locations(sockets, k))
    requires FailedAttempt(now, after, sockets[k], f)
    requires q in after && q !in before && q !in Locations(sockets, k)
    ensures (after[q].Directory? && IsAncestorOfSome(q, Locations(sockets, k + 1)))
            || (after[q].Socket? && Locate(sockets[k].path) == Valid(q) && FailsAfterBind(sockets[k], f))
  {
    var own := Locate(sockets[k].path);
    if q in now {
      AncestorsGrow(q, Locations(sockets, k), if own.Valid? then [own.location] else []);
      assert after[q] == now[q];
    } else if own != Valid(q) {
      assert ProperAncestor(q, Locations(sockets, k + 1)[k]);
    }
  }

  lemma FailureRollsBack(before: Entries, now: Entries, after: Entries, sockets: seq<ListenerSocket>, k: nat, f: Faults)
    requires k < |sockets| && |Locations(sockets, k)| == k
    requires BoundSoFar(before, now, Locations(sockets, k), Locations(sockets, k))
    requires FailedAttempt(now, after, sockets[k], f)
    ensures RolledBack(before, DropAll(after, Locations(sockets, k)), sockets, k, f)
  {
    var guards := Locations(sockets, k);
    var final := DropAll(after, guards);
    GuardedPathsVanish(before, now, after, guards, sockets[k], f);
    forall q | q in final && q !in before
      ensures (final[q].Directory? && IsAncestorOfSome(q, Locations(sockets, k + 1)))
              || (final[q].Socket? && Locate(sockets[k].path) == Valid(q) && FailsAfterBind(sockets[k], f))
    {
      NewEntryIsExplained(before, now, after, sockets, k, f, q);
    }
  }

  lemma BindStep(before: Entries, now: Entries, sockets: seq<ListenerSocket>, k: nat, f: Faults)
    requires k < |sockets| && |Locations(sockets, k)| == k
    requires BoundSoFar(before, now, Locations(sockets, k), Locations(sockets, k))
    ensures var (after, attempt) := BindOne(now, sockets[k], f);
      var guards := Locations(sockets, k);
      if attempt.Guarded? then
        var more := guards + [attempt.location];
        more == Locations(sockets, k + 1) && BoundSoFar(before, after, more, more)
      else
        RolledBack(before, DropAll(after, guards), sockets, k, f)
  {
    var guards := Locations(sockets, k);
    var (after, attempt) := BindOne(now, sockets[k], f);
    BindOneOnlyTouches(now, sockets[k], f);
    match attempt
    case Refused(_) => FailureRollsBack(before, now, after, sockets, k, f);
    case Guarded(p) => AnotherBound(before, now, after, guards, guards, p);
  }

  lemma {:induction false} BindLoop(before: Entries, now: Entries, sockets: seq<ListenerSocket>, faults: seq<Faults>, guards: seq<Location>)
    requires |faults| == |sockets| && |guards| <= |sockets|
    requires guards == Locations(sockets, |guards|) && BoundSoFar(before, now, guards, guards)
    ensures var (after, result) := BindFrom(now, sockets, faults, guards);
      match result
      case Failed(k, _) => |guards| <= k < |sockets| && RolledBack(before, after, sockets, k, faults[k])
      case Bound(all) =>
        |all| == |sockets| && all == Locations(sockets, |sockets|) && BoundSoFar(before, after, all, all)
    decreases |sockets| - |guards|
  {
    var k := |guards|;
    if k < |sockets| {
      BindStep(before, now, sockets, k, faults[k]);
      var (after, attempt) := BindOne(now, sockets[k], faults[k]);
      if attempt.Guarded? {
        BindLoop(before, after, sockets, faults, guards + [attempt.location]);
      }
    }
  }

  /** Rollback. If binding fails at listener `k`, whatever the operating system
      refused: no path of an earlier listener has anything left at it, repeated
      paths included; nothing that was not a socket is gone or changed; and the
      only other traces are new directories above configured paths and, if the
      failure came after the bind itself, the socket of listener `k`. */
  lemma FailedBindRollsBack(fs: Entries, sockets: seq<ListenerSocket>, faults: seq<Faults>)
    requires |faults| == |sockets|
    requires BindAll(fs, sockets, faults).1.Failed?
    ensures var (after, result) := BindAll(fs, sockets, faults);
      result.index < |sockets| && RolledBack(fs, after, sockets, result.index, faults[result.index])
  {
    BindLoop(fs, fs, sockets, faults, []);
  }

  /** Success and clean-up. If binding succeeds every configured path holds a
      socket, and dropping the daemon leaves none of them, while everything that
      was not a socket before is still there unchanged. */
  lemma BoundDaemonCleansUp(fs: Entries, sockets: seq<ListenerSocket>, faults: seq<Faults>)
    requires |faults| == |sockets|
    requires BindAll(fs, sockets, faults).1.Bound?
    ensures var (bound, result) := BindAll(fs, sockets, faults);
      var dropped := DropAll(bound, result.guards);
      && |result.guards| == |sockets|
      && (forall i :: 0 <= i < |sockets| ==> Locate(sockets[i].path) == Valid(result.guards[i]))
      && (forall i :: 0 <= i < |sockets| ==> result.guards[i] in bound && bound[result.guards[i]].Socket?)
      && (forall i :: 0 <= i < |sockets| ==> result.guards[i] !in dropped)
      && (forall q :: q in fs && !fs[q].Socket? ==> q in dropped && dropped[q] == fs[q])
  {
    BindLoop(fs, fs, sockets, faults, []);
    var (bound, result) := BindAll(fs, sockets, faults);
    DropAllRemovesExactly(bound, result.guards);
    LocationsAreInOrder(sockets, |sockets|);
  }

  lemma {:induction false} LocationsAreInOrder(sockets: seq<ListenerSocket>, count: nat)
    requires count <= |sockets|
    ensures |Locations(sockets, count)| <= count
    ensures |Locations(sockets, count)| == count ==>
      forall i :: 0 <= i < count ==> Locate(sockets[i].path) == Valid(Locations(sockets, count)[i])
    decreases count
  {
    if count > 0 {
      LocationsAreInOrder(sockets, count - 1);
    }
  }

  // ---------- when one attempt succeeds ----------

  /** Every existing ancestor is a directory. */
  predicate AncestorsAreDirectories(fs: Entries, p: Location)
  {
    forall q :: q in fs && q != [] && ProperAncestor(q, p) ==> fs[q].Directory?
  }

  /** What a caller can check about one path before binding it. */
  predicate PathIsFree(fs: Entries, socket: ListenerSocket)
  {
    match Locate(socket.path)
    case Invalid(_) => false
    case Valid(p) => p != [] && AncestorsAreDirectories(fs, p) && (p in fs ==> fs[p].Socket?)
  }

  /** How many of `p` and the directories above it do not exist. */
  function Missing(fs: Entries, p: Location): nat
    decreases |p|
  {
    if p == [] then 0 else Missing(fs, Parent(p)) + if p in fs then 0 else 1
  }

  lemma PrefixOfShorter(q: Location, p: Location)
    requires p != []
    ensures AtOrAbove(q, p) <==> q == p || AtOrAbove(q, Parent(p))
  {
  }

  lemma {:induction false} CreateDirAllSucceedsIff(fs: Entries, p: Location, mkdirs: nat)
    ensures var (made, left) := CreateDirAll(fs, p, mkdirs);
      && (left.Some? <==>
            (forall q :: q in fs && q != [] && AtOrAbove(q, p) ==> fs[q].Directory?) && Missing(fs, p) <= mkdirs)
      && (left.Some? ==>
            && left.value == mkdirs - Missing(fs, p)
            && forall q :: q != [] && AtOrAbove(q, p) ==> q in made && made[q].Directory?)
    decreases |p|
  {
    if p != [] {
      CreateDirAllSucceedsIff(fs, Parent(p), mkdirs);
      CreateDirAllAdds(fs, Parent(p), mkdirs);
      forall q ensures AtOrAbove(q, p) <==> q == p || AtOrAbove(q, Parent(p)) {
        PrefixOfShorter(q, p);
      }
    }
  }

  /** A directory exists after `create_dir_all`, succeed or fail, exactly if it did
      before, or nothing but directories was above it and the system let it and the
      missing ones above it be made. */
  lemma {:induction false} CreateDirAllMakes(fs: Entries, p: Location, mkdirs: nat)
    ensures var made := CreateDirAll(fs, p, mkdirs).0;
      forall q :: q != [] && AtOrAbove(q, p) ==>
        (q in made <==> q in fs || (AncestorsAreDirectories(fs, q) && Missing(fs, q) <= mkdirs))
    decreases |p|
  {
    if p != [] {
      CreateDirAllMakes(fs, Parent(p), mkdirs);
      CreateDirAllSucceedsIff(fs, Parent(p), mkdirs);
      CreateDirAllAdds(fs, Parent(p), mkdirs);
      assert !AtOrAbove(p, Parent(p));
      assert forall q :: ProperAncestor(q, p) <==> AtOrAbove(q, Parent(p));
      var above, made := CreateDirAll(fs, Parent(p), mkdirs).0, CreateDirAll(fs, p, mkdirs).0;
      assert p in above <==> p in fs;
      assert forall q :: q != p ==> (q in made <==> q in above);
      assert AncestorsAreDirectories(fs, p) <==>
        forall q :: q in fs && q != [] && AtOrAbove(q, Parent(p)) ==> fs[q].Directory?;
      forall q | q != [] && AtOrAbove(q, p)
        ensures q in made <==> q in fs || (AncestorsAreDirectories(fs, q) && Missing(fs, q) <= mkdirs)
      {
        PrefixOfShorter(q, p);
      }
    }
  }

  /** Directories made by an attempt stay, whether it succeeds or fails. */
  lemma {:induction false} AttemptKeepsDirectories(fs: Entries, socket: ListenerSocket, f: Faults)
    requires Locate(socket.path).Valid?
    ensures forall q :: q != [] && ProperAncestor(q, Locate(socket.path).location) ==>
      (q in BindOne(fs, socket, f).0 <==>
        q in fs || (AncestorsAreDirectories(fs, q) && Missing(fs, q) <= f.mkdirs))
  {
    var p := Locate(socket.path).location;
    var made := CreateDirAll(fs, Parent(p), f.mkdirs).0;
    CreateDirAllMakes(fs, Parent(p), f.mkdirs);
    assert forall q :: q != p ==> (q in BindOne(fs, socket, f).0 <==> q in made);
    forall q | q != [] && ProperAncestor(q, p)
      ensures q in BindOne(fs, socket, f).0 <==> q in fs || (AncestorsAreDirectories(fs, q) && Missing(fs, q) <= f.mkdirs)
    {
      PrefixOfShorter(q, p);
    }
  }

  ghost predicate AncestorsExist(fs: Entries, p: Location)
  {
    forall q :: q != [] && ProperAncestor(q, p) ==> q in fs && fs[q].Directory?
  }

  /** A call on the way to `bind` is reached and refused. */
  predicate RefusedBeforeBind(fs: Entries, p: Location, f: Faults)
  {
    Missing(fs, Parent(p)) > f.mkdirs || f.inspect || (KindAt(fs, p) == Some(Socket) && f.remove)
  }

  lemma {:induction false} PrepareSucceedsIff(fs: Entries, p: Location, f: Faults)
    ensures Prepare(fs, p, f).1.None? <==>
      && p != [] && AncestorsAreDirectories(fs, p) && (p in fs ==> fs[p].Socket?)
      && !RefusedBeforeBind(fs, p, f)
    ensures Prepare(fs, p, f).1.None? ==> AncestorsExist(Prepare(fs, p, f).0, p)
  {
    CreateDirAllSucceedsIff(fs, Parent(p), f.mkdirs);
    CreateDirAllAdds(fs, Parent(p), f.mkdirs);
    if p != [] {
      assert forall q :: ProperAncestor(q, p) <==> AtOrAbove(q, Parent(p));
      assert !AtOrAbove(p, Parent(p));
    }
  }

  /** The attempt gets as far as `bind`. */
  predicate ReachesBind(fs: Entries, socket: ListenerSocket, f: Faults)
  {
    PathIsFree(fs, socket) && !RefusedBeforeBind(fs, Locate(socket.path).location, f)
  }

  lemma {:induction false} BindOneSucceedsIff(fs: Entries, socket: ListenerSocket, f: Faults)
    ensures BindOne(fs, socket, f).1.Guarded? <==> ReachesBind(fs, socket, f) && !f.bind && !FailsAfterBind(socket, f)
    ensures BindOne(fs, socket, f).1.Guarded? <==>
      && PathIsFree(fs, socket)
      && var p := Locate(socket.path).location;
      && Missing(fs, Parent(p)) <= f.mkdirs && !f.inspect && !(p in fs && f.remove)
      && !f.bind && !f.listen && !(socket.hasMode && f.mode) && !f.nonblocking
    ensures BindOne(fs, socket, f).1.Guarded? ==>
      AncestorsExist(BindOne(fs, socket, f).0, Locate(socket.path).location)
  {
    if Locate(socket.path).Valid? {
      PrepareSucceedsIff(fs, Locate(socket.path).location, f);
    }
  }

  // ---------- when the whole loop succeeds ----------

  predicate PathNests(a: ListenerSocket, b: ListenerSocket)
  {
    Locate(a.path).Valid? && Locate(b.path).Valid? && ProperAncestor(Locate(a.path).location, Locate(b.path).location)
  }

  /** Neither below an earlier path nor above one. The same path is allowed. */
  predicate NestsWithNoEarlier(sockets: seq<ListenerSocket>, k: nat)
    requires k < |sockets|
  {
    forall j :: 0 <= j < k ==> !PathNests(sockets[j], sockets[k]) && !PathNests(sockets[k], sockets[j])
  }

  predicate IsAtOrAboveSome(q: Location, locations: seq<Location>)
  {
    exists i :: 0 <= i < |locations| && AtOrAbove(q, locations[i])
  }

  /** The directories listener `k` has to make itself: those that were missing and
      that no earlier listener made. */
  function MissingBeside(before: Entries, earlier: seq<Location>, p: Location): nat
    decreases |p|
  {
    if p == [] then 0
    else MissingBeside(before, earlier, Parent(p)) + if p in before || IsAtOrAboveSome(p, earlier) then 0 else 1
  }

  /** What a caller can check about listener `k` before binding any: its path, the
      earlier paths, and which refusals it would meet. */
  predicate CanReachBind(before: Entries, sockets: seq<ListenerSocket>, faults: seq<Faults>, k: nat)
    requires k < |sockets| == |faults|
  {
    var f, earlier := faults[k], Locations(sockets, k);
    && PathIsFree(before, sockets[k])
    && NestsWithNoEarlier(sockets, k)
    && var p := Locate(sockets[k].path).location;
    && MissingBeside(before, earlier, Parent(p)) <= f.mkdirs
    && !f.inspect
    && (p in before || p in earlier ==> !f.remove)
  }

  predicate CanBind(before: Entries, sockets: seq<ListenerSocket>, faults: seq<Faults>, k: nat)
    requires k < |sockets| == |faults|
  {
    CanReachBind(before, sockets, faults, k) && !faults[k].bind && !FailsAfterBind(sockets[k], faults[k])
  }

  /** The state of the loop with these guards, seen from the start. */
  ghost predicate Settled(before: Entries, now: Entries, guards: seq<Location>)
  {
    BoundSoFar(before, now, guards, guards) && forall g :: g in guards ==> AncestorsExist(now, g)
  }

  lemma PresentNow(before: Entries, now: Entries, guards: seq<Location>, q: Location)
    requires Settled(before, now, guards) && q != []
    ensures q in now <==> q in before || IsAtOrAboveSome(q, guards)
  {
    if IsAtOrAboveSome(q, guards) {
      var i :| 0 <= i < |guards| && AtOrAbove(q, guards[i]);
      assert guards[i] in guards && AncestorsExist(now, guards[i]);
      assert q == guards[i] || ProperAncestor(q, guards[i]);
    }
    if q in guards {
      var i :| 0 <= i < |guards| && guards[i] == q;
      assert AtOrAbove(q, guards[i]);
    } else if q in now && q !in before {
      var i :| 0 <= i < |guards| && ProperAncestor(q, guards[i]);
      assert AtOrAbove(q, guards[i]);
    }
  }

  lemma {:induction false} MissingNow(before: Entries, now: Entries, guards: seq<Location>, p: Location)
    requires Settled(before, now, guards)
    ensures Missing(now, p) == MissingBeside(before, guards, p)
    decreases |p|
  {
    if p != [] {
      MissingNow(before, now, guards, Parent(p));
      PresentNow(before, now, guards, p);
    }
  }

  predicate NestsWithNone(p: Location, guards: seq<Location>)
  {
    forall g :: g in guards ==> !ProperAncestor(g, p) && !ProperAncestor(p, g)
  }

  /** A path is free now exactly if it was free at the start and does not nest
      with a path bound since. */
  lemma FreeNow(before: Entries, now: Entries, guards: seq<Location>, socket: ListenerSocket)
    requires Settled(before, now, guards) && Locate(socket.path).Valid?
    ensures PathIsFree(now, socket) <==>
      PathIsFree(before, socket) && NestsWithNone(Locate(socket.path).location, guards)
  {
    var p := Locate(socket.path).location;
    if PathIsFree(now, socket) {
      forall g | g in guards ensures !ProperAncestor(g, p) && !ProperAncestor(p, g) {
        assert AncestorsExist(now, g);
      }
      forall q | q in before && q != [] && ProperAncestor(q, p) ensures before[q].Directory? {
        assert q !in guards;
      }
    }
    if PathIsFree(before, socket) && NestsWithNone(p, guards) {
      forall q | q in now && q != [] && ProperAncestor(q, p) ensures now[q].Directory? {
        assert q !in guards;
      }
      assert !IsAncestorOfSome(p, guards);
    }
  }

  lemma NestingByLocation(sockets: seq<ListenerSocket>, k: nat)
    requires k < |sockets| && |Locations(sockets, k)| == k && Locate(sockets[k].path).Valid?
    ensures NestsWithNoEarlier(sockets, k) <==> NestsWithNone(Locate(sockets[k].path).location, Locations(sockets, k))
  {
    var p, earlier := Locate(sockets[k].path).location, Locations(sockets, k);
    LocationsAreInOrder(sockets, k);
    if NestsWithNone(p, earlier) {
      forall j | 0 <= j < k ensures !PathNests(sockets[j], sockets[k]) && !PathNests(sockets[k], sockets[j]) {
        assert earlier[j] in earlier;
      }
    }
    if NestsWithNoEarlier(sockets, k) {
      forall g | g in earlier ensures !ProperAncestor(g, p) && !ProperAncestor(p, g) {
        var j :| 0 <= j < k && earlier[j] == g;
        assert !PathNests(sockets[j], sockets[k]) && !PathNests(sockets[k], sockets[j]);
      }
    }
  }

  /** The attempt at listener `k` gets as far as `bind` exactly as the paths and
      refusals said at the start. */
  lemma {:induction false} ReachesBindAsForeseen(before: Entries, now: Entries, sockets: seq<ListenerSocket>, faults: seq<Faults>, k: nat)
    requires k < |sockets| == |faults| && |Locations(sockets, k)| == k
    requires Settled(before, now, Locations(sockets, k))
    ensures ReachesBind(now, sockets[k], faults[k]) <==> CanReachBind(before, sockets, faults, k)
  {
    if Locate(sockets[k].path).Valid? {
      var p, earlier := Locate(sockets[k].path).location, Locations(sockets, k);
      FreeNow(before, now, earlier, sockets[k]);
      NestingByLocation(sockets, k);
      MissingNow(before, now, earlier, Parent(p));
      if PathIsFree(now, sockets[k]) {
        assert p in now <==> p in before || p in earlier by {
          PresentNow(before, now, earlier, p);
          if IsAtOrAboveSome(p, earlier) {
            var i :| 0 <= i < |earlier| && AtOrAbove(p, earlier[i]);
            assert earlier[i] in earlier && !ProperAncestor(p, earlier[i]);
          }
        }
      }
    }
  }

  lemma {:induction false} GuardedSettles(before: Entries, now: Entries, sockets: seq<ListenerSocket>, k: nat, f: Faults)
    requires k < |sockets| && |Locations(sockets, k)| == k
    requires Settled(before, now, Locations(sockets, k)) && BindOne(now, sockets[k], f).1.Guarded?
    ensures var (after, attempt) := BindOne(now, sockets[k], f);
      && Locations(sockets, k + 1) == Locations(sockets, k) + [attempt.location]
      && Settled(before, after, Locations(sockets, k + 1))
  {
    var guards := Locations(sockets, k);
    var (after, attempt) := BindOne(now, sockets[k], f);
    BindStep(before, now, sockets, k, f);
    BindOneOnlyTouches(now, sockets[k], f);
    BindOneSucceedsIff(now, sockets[k], f);
    forall g | g in guards ensures AncestorsExist(after, g) {
      assert AncestorsExist(now, g);
    }
  }

  /** One turn of the loop, foretold from the start. */
  lemma {:induction false} TurnAsForeseen(before: Entries, now: Entries, sockets: seq<ListenerSocket>, faults: seq<Faults>, k: nat)
    requires k < |sockets| == |faults| && |Locations(sockets, k)| == k
    requires Settled(before, now, Locations(sockets, k))
    ensures var (after, attempt) := BindOne(now, sockets[k], faults[k]);
      && (attempt.Guarded? <==> CanBind(before, sockets, faults, k))
      && (attempt.Guarded? ==>
            && Locations(sockets, k + 1) == Locations(sockets, k) + [attempt.location]
            && Settled(before, after, Locations(sockets, k + 1)))
  {
    ReachesBindAsForeseen(before, now, sockets, faults, k);
    BindOneSucceedsIff(now, sockets[k], faults[k]);
    if BindOne(now, sockets[k], faults[k]).1.Guarded? {
      GuardedSettles(before, now, sockets, k, faults[k]);
    }
  }

  /** The file system when the loop comes to listener `k`, if it does. */
  function NowAt(fs: Entries, sockets: seq<ListenerSocket>, faults: seq<Faults>, k: nat): Option<Entries>
    requires k <= |sockets| == |faults|
    decreases k
  {
    if k == 0 then Some(fs)
    else
      match NowAt(fs, sockets, faults, k - 1)
      case None => None
      case Some(now) =>
        var (after, attempt) := BindOne(now, sockets[k - 1], faults[k - 1]);
        if attempt.Guarded? then Some(after) else None
  }

  lemma GuardIsOwnLocation(fs: Entries, socket: ListenerSocket, f: Faults)
    requires BindOne(fs, socket, f).1.Guarded?
    ensures Locate(socket.path) == Valid(BindOne(fs, socket, f).1.location)
  {
  }

  lemma {:induction false} FailsNoEarlier(fs: Entries, sockets: seq<ListenerSocket>, faults: seq<Faults>, guards: seq<Location>)
    requires |faults| == |sockets| && |guards| <= |sockets|
    ensures var result := BindFrom(fs, sockets, faults, guards).1;
      result.Failed? ==> |guards| <= result.index < |sockets|
    decreases |sockets| - |guards|
  {
    if |guards| < |sockets| {
      var (after, attempt) := BindOne(fs, sockets[|guards|], faults[|guards|]);
      if attempt.Guarded? { FailsNoEarlier(after, sockets, faults, guards + [attempt.location]); }
    }
  }

  /** The loop passes through listener `k`, or has failed before it. */
  lemma {:induction false} LoopComesTo(fs: Entries, sockets: seq<ListenerSocket>, faults: seq<Faults>, k: nat)
    requires k <= |sockets| == |faults|
    ensures var now := NowAt(fs, sockets, faults, k);
      var (after, result) := BindAll(fs, sockets, faults);
      if now.Some? then
        && |Locations(sockets, k)| == k
        && (after, result) == BindFrom(now.value, sockets, faults, Locations(sockets, k))
      else result.Failed? && result.index < k
    decreases k
  {
    if k > 0 {
      LoopComesTo(fs, sockets, faults, k - 1);
      var now := NowAt(fs, sockets, faults, k - 1);
      if now.Some? && BindOne(now.value, sockets[k - 1], faults[k - 1]).1.Guarded? {
        GuardIsOwnLocation(now.value, sockets[k - 1], faults[k - 1]);
      }
    }
  }

  lemma {:induction false} NowIsSettled(fs: Entries, sockets: seq<ListenerSocket>, faults: seq<Faults>, k: nat)
    requires k <= |sockets| == |faults| && NowAt(fs, sockets, faults, k).Some?
    ensures |Locations(sockets, k)| == k
    ensures Settled(fs, NowAt(fs, sockets, faults, k).value, Locations(sockets, k))
    decreases k
  {
    if k > 0 {
      NowIsSettled(fs, sockets, faults, k - 1);
      TurnAsForeseen(fs, NowAt(fs, sockets, faults, k - 1).value, sockets, faults, k - 1);
    }
  }

  lemma {:induction false} ComesOneFurther(fs: Entries, sockets: seq<ListenerSocket>, faults: seq<Faults>, k: nat)
    requires k < |sockets| == |faults|
    ensures NowAt(fs, sockets, faults, k + 1).Some? <==> NowAt(fs, sockets, faults, k).Some? && CanBind(fs, sockets, faults, k)
  {
    if NowAt(fs, sockets, faults, k).Some? {
      NowIsSettled(fs, sockets, faults, k);
      TurnAsForeseen(fs, NowAt(fs, sockets, faults, k).value, sockets, faults, k);
    }
  }

  /** A chain that goes on exactly where it can. */
  lemma {:induction false} ChainReaches(reached: seq<bool>, can: seq<bool>, k: nat)
    requires |reached| == |can| + 1 && k <= |can| && reached[0]
    requires forall i :: 0 <= i < |can| ==> (reached[i + 1] <==> reached[i] && can[i])
    ensures reached[k] <==> forall i :: 0 <= i < k ==> can[i]
    decreases k
  {
    if k > 0 {
      ChainReaches(reached, can, k - 1);
      assert reached[k - 1 + 1] <==> reached[k - 1] && can[k - 1];
    }
  }

  /** The loop comes to listener `k` exactly if all earlier listeners can bind. */
  lemma {:induction false} ComesToIff(fs: Entries, sockets: seq<ListenerSocket>, faults: seq<Faults>, k: nat)
    requires k <= |sockets| == |faults|
    ensures NowAt(fs, sockets, faults, k).Some? <==> forall i :: 0 <= i < k ==> CanBind(fs, sockets, faults, i)
  {
    var n := |sockets|;
    var reached := seq(n + 1, i requires 0 <= i <= n => NowAt(fs, sockets, faults, i).Some?);
    var can := seq(n, i requires 0 <= i < n => CanBind(fs, sockets, faults, i));
    forall i | 0 <= i < n ensures reached[i + 1] <==> reached[i] && can[i] {
      ComesOneFurther(fs, sockets, faults, i);
    }
    ChainReaches(reached, can, k);
    if reached[k] {
      forall i | 0 <= i < k ensures CanBind(fs, sockets, faults, i) {
        assert can[i];
      }
    } else {
      var i :| 0 <= i < k && !can[i];
      assert !CanBind(fs, sockets, faults, i);
    }
  }

  /** The loop stops at the first listener that cannot bind, if there is one. */
  predicate StopsAtFirst(before: Entries, sockets: seq<ListenerSocket>, faults: seq<Faults>, result: BindResult)
    requires |faults| == |sockets|
  {
    match result
    case Bound(_) => forall i :: 0 <= i < |sockets| ==> CanBind(before, sockets, faults, i)
    case Failed(k, _) =>
      && k < |sockets| && !CanBind(before, sockets, faults, k)
      && forall i :: 0 <= i < k ==> CanBind(before, sockets, faults, i)
  }

  /** Binding succeeds exactly if every listener can bind, as one can tell from
      the paths and the refusals before binding any: its path is valid and free
      (at it nothing or a stale socket, above it only directories), nests with no
      earlier path, and no refused call is reached. Otherwise it fails at exactly
      the first listener that cannot. The same path may be configured twice. */
  lemma {:induction false} BindSucceedsIff(fs: Entries, sockets: seq<ListenerSocket>, faults: seq<Faults>)
    requires |faults| == |sockets|
    ensures var result := BindAll(fs, sockets, faults).1;
      && (result.Bound? <==> forall i :: 0 <= i < |sockets| ==> CanBind(fs, sockets, faults, i))
      && StopsAtFirst(fs, sockets, faults, result)
  {
    var result := BindAll(fs, sockets, faults).1;
    LoopComesTo(fs, sockets, faults, |sockets|);
    ComesToIff(fs, sockets, faults, |sockets|);
    if result.Failed? {
      FailsNoEarlier(fs, sockets, faults, []);
      var k := result.index;
      LoopComesTo(fs, sockets, faults, k);
      LoopComesTo(fs, sockets, faults, k + 1);
      if NowAt(fs, sockets, faults, k + 1).Some? {
        FailsNoEarlier(NowAt(fs, sockets, faults, k + 1).value, sockets, faults, Locations(sockets, k + 1));
        assert false;
      }
      ComesOneFurther(fs, sockets, faults, k);
      ComesToIff(fs, sockets, faults, k);
    }
  }

  /** Why the loop fails: a path that is not accepted, something else than a
      socket where only directories are above, or a refusal. */
  lemma {:induction false} AttemptFailsBecause(now: Entries, socket: ListenerSocket, f: Faults)
    requires BindOne(now, socket, f).1.Refused?
    ensures var error := BindOne(now, socket, f).1.error;
      && (Locate(socket.path).Invalid? ==> error == RuntimePath(Locate(socket.path).error) && BindOne(now, socket, f).0 == now)
      && (Locate(socket.path).Valid? ==>
            var p := Locate(socket.path).location;
            var blocked := !(AncestorsAreDirectories(now, p) && Missing(now, Parent(p)) <= f.mkdirs) || f.inspect;
            var kind := KindAt(now, p);
            error == if !blocked && kind.Some? && !kind.value.Socket? then NonSocketPath(kind.value) else Io)
  {
    if Locate(socket.path).Valid? {
      var p := Locate(socket.path).location;
      CreateDirAllSucceedsIff(now, Parent(p), f.mkdirs);
      CreateDirAllAdds(now, Parent(p), f.mkdirs);
      if p != [] {
        assert forall q :: ProperAncestor(q, p) <==> AtOrAbove(q, Parent(p));
        assert !AtOrAbove(p, Parent(p));
      }
    }
  }

  /** The first listener whose path is not accepted ends the loop with the reason,
      if all earlier ones can bind, and none of their sockets is left. */
  lemma {:induction false} UnacceptedPathFails(fs: Entries, sockets: seq<ListenerSocket>, faults: seq<Faults>, k: nat)
    requires |faults| == |sockets| && k < |sockets| && Locate(sockets[k].path).Invalid?
    requires forall i :: 0 <= i < k ==> CanBind(fs, sockets, faults, i)
    ensures var (after, result) := BindAll(fs, sockets, faults);
      && result == Failed(k, RuntimePath(Locate(sockets[k].path).error))
      && |Locations(sockets, k)| == k
      && forall g :: g in Locations(sockets, k) ==> g !in after
  {
    LoopComesTo(fs, sockets, faults, k);
    ComesToIff(fs, sockets, faults, k);
    AttemptFailsBecause(NowAt(fs, sockets, faults, k).value, sockets[k], faults[k]);
    FailedBindRollsBack(fs, sockets, faults);
  }

  /** A path that goes up is refused as such, wherever it leads. */
  lemma {:induction false} ParentDirectoryIsRefused(fs: Entries, sockets: seq<ListenerSocket>, faults: seq<Faults>, k: nat)
    requires |faults| == |sockets| && k < |sockets|
    requires sockets[k].path.absolute && ParentDir in sockets[k].path.components
    requires forall i :: 0 <= i < k ==> CanBind(fs, sockets, faults, i)
    ensures BindAll(fs, sockets, faults).1 == Failed(k, RuntimePath(ParentDirectory))
  {
    PathIsValidIff(sockets[k].path);
    UnacceptedPathFails(fs, sockets, faults, k);
  }

  // ---------- the socket that a failure after bind leaves behind ----------

  /** One attempt and the guards that run if it fails. A socket made by the
      attempt is there afterwards exactly if no guard owns the same path. */
  lemma {:induction false} AttemptLeavesSocketIff(now: Entries, socket: ListenerSocket, f: Faults, guards: seq<Location>)
    requires Locate(socket.path).Valid?
    ensures var p := Locate(socket.path).location;
      var (after, attempt) := BindOne(now, socket, f);
      var left := DropAll(after, guards);
      && (ReachesBind(now, socket, f) && !f.bind && FailsAfterBind(socket, f) ==>
            && attempt == Refused(Io)
            && (p in left <==> p !in guards) && (p in left ==> left[p].Socket?))
      && (ReachesBind(now, socket, f) && f.bind ==> attempt.Refused? && p !in left)
      && (!ReachesBind(now, socket, f) && p in left ==>
            p in now && now[p] == left[p] && !(left[p].Socket? && p != [] && p in guards))
  {
    var p := Locate(socket.path).location;
    PrepareSucceedsIff(now, p, f);
    PrepareOnlyTouches(now, p, f);
    DropAllRemovesExactly(BindOne(now, socket, f).0, guards);
  }

  lemma {:induction false} OwnSocketStaysAt(before: Entries, at: Entries, sockets: seq<ListenerSocket>, faults: seq<Faults>, k: nat)
    requires |faults| == |sockets| && k < |sockets| && |Locations(sockets, k)| == k
    requires Settled(before, at, Locations(sockets, k))
    requires Locate(sockets[k].path).Valid? && Locate(sockets[k].path).location !in before
    ensures var p := Locate(sockets[k].path).location;
      var (after, result) := BindFrom(at, sockets, faults, Locations(sockets, k));
      (result.Failed? && result.index == k && p in after && after[p].Socket?) <==>
        && ReachesBind(at, sockets[k], faults[k])
        && !faults[k].bind && FailsAfterBind(sockets[k], faults[k])
        && p !in Locations(sockets, k)
  {
    var earlier := Locations(sockets, k);
    AttemptLeavesSocketIff(at, sockets[k], faults[k], earlier);
    BindOneSucceedsIff(at, sockets[k], faults[k]);
    var (after, attempt) := BindOne(at, sockets[k], faults[k]);
    if attempt.Guarded? {
      FailsNoEarlier(after, sockets, faults, earlier + [attempt.location]);
    }
  }

  /** The file a failure after `bind` leaves behind, for the whole loop. With
      nothing at the path of listener `k` before, binding fails at `k` with a fresh
      socket left there exactly if all earlier listeners can bind, `k` reaches its
      `bind`, that call makes the file, a later call of the same attempt fails, and
      no earlier listener has the same path. */
  lemma {:induction false} OwnSocketStaysIff(fs: Entries, sockets: seq<ListenerSocket>, faults: seq<Faults>, k: nat)
    requires |faults| == |sockets| && k < |sockets|
    requires Locate(sockets[k].path).Valid? && Locate(sockets[k].path).location !in fs
    ensures var p := Locate(sockets[k].path).location;
      var (after, result) := BindAll(fs, sockets, faults);
      (result.Failed? && result.index == k && p in after && after[p].Socket?) <==>
        && (forall i :: 0 <= i < k ==> CanBind(fs, sockets, faults, i))
        && CanReachBind(fs, sockets, faults, k)
        && !faults[k].bind && FailsAfterBind(sockets[k], faults[k])
        && p !in Locations(sockets, k)
  {
    LoopComesTo(fs, sockets, faults, k);
    ComesToIff(fs, sockets, faults, k);
    var now := NowAt(fs, sockets, faults, k);
    if now.Some? {
      NowIsSettled(fs, sockets, faults, k);
      ReachesBindAsForeseen(fs, now.value, sockets, faults, k);
      OwnSocketStaysAt(fs, now.value, sockets, faults, k);
    }
  }

  /** With a stale socket at the path or without: whenever the failure comes
      after `bind`, the file stays unless an earlier guard removes it. */
  lemma {:induction false} FailureAfterBindLeavesSocket(fs: Entries, sockets: seq<ListenerSocket>, faults: seq<Faults>, k: nat)
    requires |faults| == |sockets| && k < |sockets|
    requires forall i :: 0 <= i < k ==> CanBind(fs, sockets, faults, i)
    requires CanReachBind(fs, sockets, faults, k) && !faults[k].bind && FailsAfterBind(sockets[k], faults[k])
    ensures var p := Locate(sockets[k].path).location;
      var (after, result) := BindAll(fs, sockets, faults);
      && result == Failed(k, Io)
      && (p in after <==> p !in Locations(sockets, k))
      && (p in after ==> after[p].Socket?)
  {
    LoopComesTo(fs, sockets, faults, k);
    ComesToIff(fs, sockets, faults, k);
    NowIsSettled(fs, sockets, faults, k);
    var at := NowAt(fs, sockets, faults, k).value;
    ReachesBindAsForeseen(fs, at, sockets, faults, k);
    AttemptLeavesSocketIff(at, sockets[k], faults[k], Locations(sockets, k));
  }

  /** Both outcomes, on an empty file system: one listener whose `set_nonblocking`
      fails leaves `/s` behind; configured twice, the first listener's guard takes
      it away again. */
  lemma {:induction false} FreshSocketStaysOrGoes()
    ensures var s := ListenerSocket(Path(true, [Normal("s")]), false);
      var fine := Faults(0, false, false, false, false, false, false);
      var failing := Faults(0, false, false, false, false, false, true);
      && BindAll(map[], [s], [failing]) == (map[["s"] := Socket], Failed(0, Io))
      && BindAll(map[], [s, s], [fine, failing]).1 == Failed(1, Io)
      && ["s"] !in BindAll(map[], [s, s], [fine, failing]).0
  {
    var s := ListenerSocket(Path(true, [Normal("s")]), false);
    var fine := Faults(0, false, false, false, false, false, false);
    var failing := Faults(0, false, false, false, false, false, true);
    assert Locate(s.path) == Valid(["s"]) by {
      assert [Normal("s")][1..] == [];
    }
    assert Parent(["s"]) == [];
    assert Prepare(map[], ["s"], failing) == (map[], None);
    assert BindOne(map[], s, failing) == (map[["s"] := Socket], Refused(Io));
    assert Locations([s, s], 0) == [] && Locations([s, s], 1) == [["s"]];
    assert PathIsFree(map[], s);
    FailureAfterBindLeavesSocket(map[], [s, s], [fine, failing], 1);
  }
}

/** What the selector of src/selector.c means: its busy keys in list order as a sequence of
    values, registration as a reference-counted map, and the resumable sweep over ready keys. */
module SelectorModel {
  import opened QueueModel

  const OP_READ: bv16 := 1

  /** One busy key with the `revents` of its poll slot. */
  datatype Key<A> = Key(
    fd: int, operation: bv16, attachment: A,
    count: int, curCount: int, result: bv16, revents: bv16)

  /** Where `curKey` points: nowhere, to an unregistered key, or to the k-th busy key. */
  datatype Cursor = Nowhere | Stale | At(k: nat)

  ghost predicate DistinctFds<A>(keys: seq<Key<A>>) {
    forall i, j :: 0 <= i < j < |keys| ==> keys[i].fd != keys[j].fd
  }

  ghost predicate Counted<A>(keys: seq<Key<A>>) {
    forall i :: 0 <= i < |keys| ==> keys[i].count >= 1 && keys[i].curCount >= 0
  }

  // ---------------------------------------------------------------- registration

  /** Position of the key for `fd`, or |keys|. */
  function Find<A>(keys: seq<Key<A>>, fd: int): (k: nat)
    ensures k <= |keys| && (k < |keys| ==> keys[k].fd == fd)
    ensures forall i :: 0 <= i < k ==> keys[i].fd != fd
  {
    if keys == [] || keys[0].fd == fd then 0 else 1 + Find(keys[1..], fd)
  }

  function Register<A>(keys: seq<Key<A>>, operation: bv16, fd: int, attachment: A): seq<Key<A>> {
    var k := Find(keys, fd);
    if k < |keys| then keys[k := keys[k].(count := keys[k].count + 1)]
    else keys + [Key(fd, operation, attachment, 1, 0, 0, 0)]
  }

  /** A key for `fd` that is there gets one registration more, else a new key comes last; nothing else
      changes. */
  ghost predicate RegisteredOnceMore<A>(keys: seq<Key<A>>, after: seq<Key<A>>, operation: bv16, fd: int, attachment: A) {
    && |after| == |keys| + (if exists i :: 0 <= i < |keys| && keys[i].fd == fd then 0 else 1)
    && forall i :: 0 <= i < |after| ==>
         after[i] == if i == |keys| then Key(fd, operation, attachment, 1, 0, 0, 0)
                     else keys[i].(count := keys[i].count + if keys[i].fd == fd then 1 else 0)
  }

  lemma RegisterIs<A>(keys: seq<Key<A>>, operation: bv16, fd: int, attachment: A)
    requires DistinctFds(keys)
    ensures RegisteredOnceMore(keys, Register(keys, operation, fd, attachment), operation, fd, attachment)
  {
  }

  /** Registering in two steps, a key with no registration for a new descriptor and then one more. */
  lemma RegisterSteps<A>(keys: seq<Key<A>>, now: seq<Key<A>>, operation: bv16, fd: int, attachment: A)
    requires Counted(keys)
    requires now == if Find(keys, fd) < |keys| then keys else keys + [Key(fd, operation, attachment, 0, 0, 0, 0)]
    ensures var k := Find(keys, fd); var r := Register(keys, operation, fd, attachment);
      && k < |now| && now[k := now[k].(count := now[k].count + 1)] == r && Counted(r)
      && Find(now, fd) == k && Find(r, fd) == k && |r| == |now|
  {
    var k := Find(keys, fd);
    FindIs(now, fd, k);
    FindIs(Register(keys, operation, fd, attachment), fd, k);
  }

  lemma FindIs<A>(keys: seq<Key<A>>, fd: int, k: nat)
    requires k < |keys| && keys[k].fd == fd && forall i :: 0 <= i < k ==> keys[i].fd != fd
    ensures Find(keys, fd) == k
  {
  }

  /** The keys left after unregistering the k-th one, and `isLastRegistration`. */
  function Unregister<A>(keys: seq<Key<A>>, k: nat, unregisterAll: bool): (seq<Key<A>>, bool)
    requires k < |keys|
  {
    if !unregisterAll && keys[k].count > 1 then (keys[k := keys[k].(count := keys[k].count - 1)], false)
    else (keys[..k] + keys[k + 1..], true)
  }

  /** The reference: a map from descriptors to counted registrations. */
  datatype Registration<A> = Registration(operation: bv16, attachment: A, count: int)

  type Registry<A> = map<int, Registration<A>>

  function MapRegister<A>(m: Registry<A>, operation: bv16, fd: int, attachment: A): Registry<A> {
    if fd in m then m[fd := m[fd].(count := m[fd].count + 1)]
    else m[fd := Registration(operation, attachment, 1)]
  }

  function MapUnregister<A>(m: Registry<A>, fd: int, unregisterAll: bool): (Registry<A>, bool)
    requires fd in m
  {
    if unregisterAll || m[fd].count == 1 then (m - {fd}, true)
    else (m[fd := m[fd].(count := m[fd].count - 1)], false)
  }

  function RegistrationOf<A>(k: Key<A>): Registration<A> {
    Registration(k.operation, k.attachment, k.count)
  }

  /** The keys are the entries of `m`, each once and with a positive count. */
  ghost predicate Represents<A>(keys: seq<Key<A>>, m: Registry<A>) {
    && DistinctFds(keys) && Counted(keys)
    && (forall i :: 0 <= i < |keys| ==> keys[i].fd in m && m[keys[i].fd] == RegistrationOf(keys[i]))
    && (forall fd :: fd in m ==> Find(keys, fd) < |keys|)
  }

  lemma FoundAt<A>(keys: seq<Key<A>>, fd: int, k: nat)
    requires k < |keys| && keys[k].fd == fd
    ensures Find(keys, fd) < |keys|
  {
  }

  /** Registering an fd again only raises its count; a new fd gets an entry with count one. */
  lemma RegisterRefinesMap<A>(keys: seq<Key<A>>, m: Registry<A>, operation: bv16, fd: int, attachment: A)
    requires Represents(keys, m)
    ensures Represents(Register(keys, operation, fd, attachment), MapRegister(m, operation, fd, attachment))
  {
    var keys', m' := Register(keys, operation, fd, attachment), MapRegister(m, operation, fd, attachment);
    var k := Find(keys, fd);
    forall f | f in m'
      ensures Find(keys', f) < |keys'|
    {
      FoundAt(keys', f, if f == fd then k else Find(keys, f));
    }
    if k < |keys| {
      assert keys[k].fd in m;
    } else if fd in m {
      assert false;
    }
  }

  lemma LowerRefinesMap<A>(keys: seq<Key<A>>, m: Registry<A>, k: nat)
    requires Represents(keys, m) && k < |keys| && keys[k].count > 1
    ensures Represents(Unregister(keys, k, false).0, MapUnregister(m, keys[k].fd, false).0)
  {
    var keys' := Unregister(keys, k, false).0;
    forall f | f in m
      ensures Find(keys', f) < |keys'|
    {
      FoundAt(keys', f, Find(keys, f));
    }
  }

  lemma RemoveRefinesMap<A>(keys: seq<Key<A>>, m: Registry<A>, k: nat)
    requires Represents(keys, m) && k < |keys|
    ensures Represents(keys[..k] + keys[k + 1..], m - {keys[k].fd})
  {
    var keys' := keys[..k] + keys[k + 1..];
    forall f | f in m - {keys[k].fd}
      ensures Find(keys', f) < |keys'|
    {
      var i := Find(keys, f);
      FoundAt(keys', f, if i > k then i - 1 else i);
    }
  }

  /** An entry disappears exactly when everything is unregistered or its count reaches zero, and
      `isLastRegistration` reports exactly that; nothing else changes. */
  lemma UnregisterRefinesMap<A>(keys: seq<Key<A>>, m: Registry<A>, k: nat, unregisterAll: bool)
    requires Represents(keys, m) && k < |keys|
    ensures keys[k].fd in m
    ensures var (keys', last) := Unregister(keys, k, unregisterAll);
      var (m', last') := MapUnregister(m, keys[k].fd, unregisterAll);
      Represents(keys', m') && last == last'
  {
    hide Represents, Find;
    assert keys[k].fd in m && m[keys[k].fd].count == keys[k].count && keys[k].count >= 1 by {
      RegistrationAt(keys, m, k);
    }
    if !unregisterAll && keys[k].count > 1 {
      LowerRefinesMap(keys, m, k);
    } else {
      RemoveRefinesMap(keys, m, k);
    }
  }

  lemma RegistrationAt<A>(keys: seq<Key<A>>, m: Registry<A>, k: nat)
    requires Represents(keys, m) && k < |keys|
    ensures keys[k].fd in m && m[keys[k].fd] == RegistrationOf(keys[k]) && keys[k].count >= 1
  {
  }

  datatype Request<A> =
    | Add(operation: bv16, fd: int, attachment: A)
    | Drop(fd: int, unregisterAll: bool)

  /** A run of requests on the key list; unregistering an unregistered key reports true and
      changes nothing. */
  function KeysAfter<A>(keys: seq<Key<A>>, requests: seq<Request<A>>): (seq<Key<A>>, seq<bool>)
    decreases |requests|
  {
    if requests == [] then (keys, [])
    else match requests[0]
      case Add(operation, fd, attachment) =>
        KeysAfter(Register(keys, operation, fd, attachment), requests[1..])
      case Drop(fd, all) =>
        var k := Find(keys, fd);
        var (keys', last) := if k < |keys| then Unregister(keys, k, all) else (keys, true);
        var (end, lasts) := KeysAfter(keys', requests[1..]);
        (end, [last] + lasts)
  }

  function MapAfter<A>(m: Registry<A>, requests: seq<Request<A>>): (Registry<A>, seq<bool>)
    decreases |requests|
  {
    if requests == [] then (m, [])
    else match requests[0]
      case Add(operation, fd, attachment) =>
        MapAfter(MapRegister(m, operation, fd, attachment), requests[1..])
      case Drop(fd, all) =>
        var (m', last) := if fd in m then MapUnregister(m, fd, all) else (m, true);
        var (end, lasts) := MapAfter(m', requests[1..]);
        (end, [last] + lasts)
  }

  /** Over every run of requests the key list stays the reference map, and both give the same
      answers. */
  lemma {:induction false} RunRefinesMap<A>(keys: seq<Key<A>>, m: Registry<A>, requests: seq<Request<A>>)
    requires Represents(keys, m)
    ensures Represents(KeysAfter(keys, requests).0, MapAfter(m, requests).0)
    ensures KeysAfter(keys, requests).1 == MapAfter(m, requests).1
    decreases |requests|
  {
    hide Represents, Find;
    if requests != [] {
      match requests[0]
      case Add(operation, fd, attachment) =>
        RegisterRefinesMap(keys, m, operation, fd, attachment);
        RunRefinesMap(Register(keys, operation, fd, attachment), MapRegister(m, operation, fd, attachment), requests[1..]);
      case Drop(fd, all) =>
        var k := Find(keys, fd);
        SameDomain(keys, m, fd);
        if k < |keys| {
          UnregisterRefinesMap(keys, m, k, all);
          RunRefinesMap(Unregister(keys, k, all).0, MapUnregister(m, fd, all).0, requests[1..]);
        } else {
          RunRefinesMap(keys, m, requests[1..]);
        }
    }
  }

  lemma SameDomain<A>(keys: seq<Key<A>>, m: Registry<A>, fd: int)
    requires Represents(keys, m)
    ensures fd in m <==> Find(keys, fd) < |keys|
  {
  }

  /** How many registrations of `fd` the requests leave. */
  function Outstanding<A>(requests: seq<Request<A>>, fd: int): nat {
    if requests == [] then 0
    else
      var n := |requests| - 1;
      var held := Outstanding(requests[..n], fd);
      match requests[n]
      case Add(_, f, _) => if f == fd then held + 1 else held
      case Drop(f, all) => if f != fd || held == 0 then held else if all then 0 else held - 1
  }

  /** The request that registered `fd` when it was not registered, and held ever since. */
  ghost predicate Opened<A>(requests: seq<Request<A>>, fd: int, i: nat) {
    && i < |requests| && requests[i].Add? && requests[i].fd == fd && Outstanding(requests[..i], fd) == 0
    && forall j :: i < j <= |requests| ==> Outstanding(requests[..j], fd) > 0
  }

  /** The answers to the last request, if it drops something. */
  lemma {:induction false} MapJoins<A>(m: Registry<A>, requests: seq<Request<A>>, r: Request<A>)
    ensures var (m1, lasts) := MapAfter(m, requests);
      MapAfter(m, requests + [r]) == match r
        case Add(operation, fd, attachment) => (MapRegister(m1, operation, fd, attachment), lasts)
        case Drop(fd, all) => if fd in m1 then (MapUnregister(m1, fd, all).0, lasts + [MapUnregister(m1, fd, all).1])
                              else (m1, lasts + [true])
    decreases |requests|
  {
    hide MapRegister, MapUnregister;
    if requests == [] {
      assert requests + [r] == [r] && [r][1..] == [];
      assert forall x: bool :: [x] + [] == [] + [x];
    } else {
      assert (requests + [r])[1..] == requests[1..] + [r];
      match requests[0]
      case Add(operation, fd, attachment) =>
        MapJoins(MapRegister(m, operation, fd, attachment), requests[1..], r);
      case Drop(fd, all) =>
        MapJoins(if fd in m then MapUnregister(m, fd, all).0 else m, requests[1..], r);
        var lasts := MapAfter(if fd in m then MapUnregister(m, fd, all).0 else m, requests[1..]).1;
        forall x: bool, y: bool
          ensures [x] + (lasts + [y]) == ([x] + lasts) + [y]
        {
        }
    }
  }

  /** Over every run of requests: a descriptor is registered exactly as often as the requests leave it,
      for the operation and with the attachment of the request that registered it first; and a drop
      answers true exactly if nothing is left. */
  lemma {:induction false} RegisteredAsRequested<A>(requests: seq<Request<A>>, fd: int)
    ensures var (m, lasts) := MapAfter<A>(map[], requests);
      && (fd in m <==> Outstanding(requests, fd) > 0)
      && (fd in m ==> m[fd].count == Outstanding(requests, fd))
      && (fd in m ==> exists i: nat :: (Opened(requests, fd, i)
           && requests[i].operation == m[fd].operation && requests[i].attachment == m[fd].attachment))
      && (requests != [] && requests[|requests| - 1].Drop? && requests[|requests| - 1].fd == fd ==>
           lasts != [] && (lasts[|lasts| - 1] <==> Outstanding(requests, fd) == 0))
    decreases |requests|
  {
    if requests != [] {
      var n := |requests| - 1;
      var rest := requests[..n];
      assert rest + [requests[n]] == requests;
      RegisteredAsRequested(rest, fd);
      MapJoins<A>(map[], rest, requests[n]);
      var m := MapAfter<A>(map[], rest).0;
      if fd in m {
        var i: nat :| Opened(rest, fd, i)
          && rest[i].operation == m[fd].operation && rest[i].attachment == m[fd].attachment;
        StillOpened(requests, fd, i);
      } else if requests[n].Add? && requests[n].fd == fd {
        assert requests[..n + 1] == requests;
        assert Opened(requests, fd, n);
      }
    }
  }

  lemma StillOpened<A>(requests: seq<Request<A>>, fd: int, i: nat)
    requires requests != [] && Opened(requests[..|requests| - 1], fd, i)
    ensures Outstanding(requests, fd) > 0 ==> Opened(requests, fd, i)
  {
    var rest := requests[..|requests| - 1];
    assert requests[..|requests|] == requests;
    forall j | 0 <= j <= |rest|
      ensures rest[..j] == requests[..j]
    {
    }
  }

  // ---------------------------------------------------------------- the sweep

  /** `revents > 0` for the signed short of struct pollfd. */
  predicate Ready<A>(k: Key<A>) {
    0 < k.revents < 0x8000
  }

  lemma PositiveIs(x: bv16)
    ensures 0 < x < 0x8000 <==> 1 <= x as int <= 0x7fff
  {
  }

  lemma ReadyIs<A>(k: Key<A>)
    ensures Ready(k) <==> 1 <= k.revents as int <= 0x7fff
  {
    PositiveIs(k.revents);
  }

  /** Position of the first ready key at or after `from`, or |keys|. */
  function FirstReady<A>(keys: seq<Key<A>>, from: nat): (j: nat)
    requires from <= |keys|
    ensures from <= j <= |keys| && (j < |keys| ==> Ready(keys[j]))
    ensures forall i :: from <= i < j ==> !Ready(keys[i])
    decreases |keys| - from
  {
    if from == |keys| || Ready(keys[from]) then from else FirstReady(keys, from + 1)
  }

  predicate InRange<A>(keys: seq<Key<A>>, cur: Cursor) {
    cur.At? ==> cur.k < |keys|
  }

  function NextOf<A>(keys: seq<Key<A>>, k: nat): (c: Cursor)
    ensures InRange(keys, c)
  {
    if k + 1 < |keys| then At(k + 1) else Nowhere
  }

  /** `polls[0].revents & polls[0].events`. */
  predicate Answers(revents: bv16, operation: bv16) {
    revents & operation != 0
  }

  /** The first half of SelectionKeyReady: a key returned before is polled again while it has
      registrations left, else it is left behind. The Boolean says that it is returned again.
      `repoll` is the answer of that poll, None when the call fails. */
  function Resume<A>(keys: seq<Key<A>>, cur: Cursor, repoll: Option<bv16>): (r: (seq<Key<A>>, Cursor, bool))
    requires InRange(keys, cur)
    ensures |r.0| == |keys| && InRange(keys, r.1) && (r.2 ==> r.1.At?)
  {
    if !cur.At? || keys[cur.k].curCount < 1 then (keys, cur, false)
    else
      var key := keys[cur.k];
      if key.count <= key.curCount then (keys[cur.k := key.(curCount := 0)], NextOf(keys, cur.k), false)
      else match repoll
        case None => (keys, cur, false)
        case Some(revents) =>
          if Answers(revents, key.operation)
          then (keys[cur.k := key.(result := revents, curCount := key.curCount + 1)], cur, true)
          else (keys, NextOf(keys, cur.k), false)
  }

  /** The second half: from the cursor (or the first key) on, the first ready key is returned and
      its `revents` consumed. */
  function Seek<A>(keys: seq<Key<A>>, cur: Cursor): (r: (seq<Key<A>>, Cursor, Option<nat>))
    requires InRange(keys, cur)
    ensures |r.0| == |keys| && InRange(keys, r.1) && (r.2.Some? ==> r.1 == At(r.2.value))
  {
    var start := match cur case Nowhere => 0 case Stale => |keys| case At(k) => k;
    var j := FirstReady(keys, start);
    if j < |keys|
    then (keys[j := keys[j].(result := keys[j].revents, curCount := keys[j].curCount + 1, revents := 0)], At(j), Some(j))
    else (keys, Nowhere, None)
  }

  /** SelectionKeyReady: the returned key's position, or None for the result false. */
  function KeyReady<A>(keys: seq<Key<A>>, cur: Cursor, repoll: Option<bv16>): (r: (seq<Key<A>>, Cursor, Option<nat>))
    requires InRange(keys, cur)
    ensures |r.0| == |keys| && InRange(keys, r.1) && (r.2.Some? ==> r.1 == At(r.2.value))
    ensures r.2.None? ==> r.1 == Nowhere
  {
    var (keys1, cur1, again) := Resume(keys, cur, repoll);
    if again then (keys1, cur1, Some(cur1.k)) else Seek(keys1, cur1)
  }

  /** The first key from `from` on whose `revents` are positive, if there is one, was returned and consumed. */
  ghost predicate FirstPositive<A>(keys: seq<Key<A>>, from: nat, after: seq<Key<A>>, cur: Cursor) {
    match cur
    case At(j) =>
      && from <= j < |keys| && 1 <= keys[j].revents as int <= 0x7fff
      && (forall i :: from <= i < j ==> !(1 <= keys[i].revents as int <= 0x7fff))
      && after == keys[j := keys[j].(result := keys[j].revents, curCount := keys[j].curCount + 1, revents := 0)]
    case _ => after == keys && forall i :: from <= i < |keys| ==> !(1 <= keys[i].revents as int <= 0x7fff)
  }

  lemma SeekFrom<A>(keys: seq<Key<A>>, cur: Cursor)
    requires InRange(keys, cur) && !cur.Stale?
    ensures var (after, at, hit) := Seek(keys, cur);
      FirstPositive(keys, if cur.At? then cur.k else 0, after, at) && !at.Stale? && hit == if at.At? then Some(at.k) else None
  {
    hide FirstReady, Ready;
    forall i | 0 <= i < |keys|
      ensures Ready(keys[i]) <==> 1 <= keys[i].revents as int <= 0x7fff
    {
      ReadyIs(keys[i]);
    }
  }

  /** One call without a current key returns the first key with positive `revents`, and takes them; it
      answers false exactly if there is none. From a key that is no longer registered it just stops. */
  lemma KeyReadyAfresh<A>(keys: seq<Key<A>>, repoll: Option<bv16>)
    ensures var (after, cur, hit) := KeyReady(keys, Nowhere, repoll);
      FirstPositive(keys, 0, after, cur) && hit == if cur.At? then Some(cur.k) else None
    ensures KeyReady(keys, Stale, repoll) == (keys, Nowhere, None)
  {
    hide FirstReady, FirstPositive;
    SeekFrom(keys, Nowhere);
  }

  /** One call at a key that was returned before: the key is returned again if it has registrations left and
      the re-poll answers its operation. If it has, and the re-poll fails, the search goes on at the key
      itself; else from the key after it, or from the first one behind the last. */
  lemma KeyReadyResumes<A>(keys: seq<Key<A>>, k: nat, repoll: Option<bv16>)
    requires k < |keys| && keys[k].curCount >= 1
    ensures var (after, cur, hit) := KeyReady(keys, At(k), repoll); var key := keys[k];
      if key.curCount < key.count && repoll.Some? && repoll.value & key.operation != 0
      then (after, cur, hit) == (keys[k := key.(result := repoll.value, curCount := key.curCount + 1)], At(k), Some(k))
      else
        var from := if key.curCount < key.count && repoll.None? then k else if k + 1 < |keys| then k + 1 else 0;
        && FirstPositive(keys[k := if key.curCount < key.count then key else key.(curCount := 0)], from, after, cur)
        && hit == if cur.At? then Some(cur.k) else None
  {
    hide Seek, FirstPositive, Resume;
    ResumeIs(keys, k, repoll);
    var (keys1, cur1, again) := Resume(keys, At(k), repoll);
    if !again {
      SeekFrom(keys1, cur1);
    }
  }

  lemma ResumeIs<A>(keys: seq<Key<A>>, k: nat, repoll: Option<bv16>)
    requires k < |keys| && keys[k].curCount >= 1
    ensures var (keys1, cur1, again) := Resume(keys, At(k), repoll); var key := keys[k];
      && (again <==> key.curCount < key.count && repoll.Some? && repoll.value & key.operation != 0)
      && (again ==> cur1 == At(k) && keys1 == keys[k := key.(result := repoll.value, curCount := key.curCount + 1)])
      && (!again ==> keys1 == keys[k := if key.curCount < key.count then key else key.(curCount := 0)]
                     && cur1 == if key.curCount < key.count && repoll.None? then At(k)
                                else if k + 1 < |keys| then At(k + 1) else Nowhere)
  {
    hide Answers;
    assert keys[k := keys[k]] == keys;
    if repoll.Some? {
      AnswersIs(repoll.value, keys[k].operation);
    }
  }

  lemma AnswersIs(revents: bv16, operation: bv16)
    ensures Answers(revents, operation) <==> revents & operation != 0
  {
  }

  /** And at a key that was not: the search goes on from there. */
  lemma KeyReadyContinues<A>(keys: seq<Key<A>>, k: nat, repoll: Option<bv16>)
    requires k < |keys| && keys[k].curCount < 1
    ensures var (after, cur, hit) := KeyReady(keys, At(k), repoll);
      FirstPositive(keys, k, after, cur) && hit == if cur.At? then Some(cur.k) else None
  {
    hide Seek, FirstPositive;
    SeekFrom(keys, At(k));
  }

  function ReadyCount<A>(keys: seq<Key<A>>): nat {
    if keys == [] then 0 else (if Ready(keys[0]) then 1 else 0) + ReadyCount(keys[1..])
  }

  /** What the cursor's key may still be polled again. */
  function Left<A>(keys: seq<Key<A>>, cur: Cursor): nat
    requires InRange(keys, cur)
  {
    if cur.At? && keys[cur.k].count > keys[cur.k].curCount then keys[cur.k].count - keys[cur.k].curCount else 0
  }

  lemma {:induction false} ReadyCountUpdate<A>(keys: seq<Key<A>>, j: nat, key: Key<A>)
    requires j < |keys|
    ensures ReadyCount(keys[j := key]) ==
      ReadyCount(keys) - (if Ready(keys[j]) then 1 else 0) + (if Ready(key) then 1 else 0)
  {
    if j == 0 {
      assert keys[0 := key][1..] == keys[1..];
    } else {
      ReadyCountUpdate(keys[1..], j - 1, key);
      assert keys[j := key][1..] == keys[1..][j - 1 := key];
    }
  }

  /** Resuming uses up a registration of the cursor's key, or changes nothing that is ready. */
  lemma ResumeProgress<A>(keys: seq<Key<A>>, cur: Cursor, repoll: Option<bv16>)
    requires InRange(keys, cur)
    ensures var (keys', cur', again) := Resume(keys, cur, repoll);
      ReadyCount(keys') == ReadyCount(keys) && (again ==> Left(keys', cur') < Left(keys, cur))
  {
    var keys' := Resume(keys, cur, repoll).0;
    if cur.At? {
      ReadyCountUpdate(keys, cur.k, keys'[cur.k]);
      assert keys' == keys[cur.k := keys'[cur.k]];
    }
  }

  lemma SeekProgress<A>(keys: seq<Key<A>>, cur: Cursor)
    requires InRange(keys, cur) && Seek(keys, cur).2.Some?
    ensures ReadyCount(Seek(keys, cur).0) < ReadyCount(keys)
  {
    hide FirstReady;
    var (keys', _, hit) := Seek(keys, cur);
    ReadyCountUpdate(keys, hit.value, keys'[hit.value]);
  }

  /** Every true result uses up a ready key or one of the cursor's registrations. */
  lemma TrueMakesProgress<A>(keys: seq<Key<A>>, cur: Cursor, repoll: Option<bv16>)
    requires InRange(keys, cur) && KeyReady(keys, cur, repoll).2.Some?
    ensures var (keys', cur', _) := KeyReady(keys, cur, repoll);
      || ReadyCount(keys') < ReadyCount(keys)
      || (ReadyCount(keys') == ReadyCount(keys) && Left(keys', cur') < Left(keys, cur))
  {
    hide Resume, Seek, ReadyCount, Left;
    ResumeProgress(keys, cur, repoll);
    var (keys1, cur1, again) := Resume(keys, cur, repoll);
    if !again {
      SeekProgress(keys1, cur1);
    }
  }

  /** The reader's loop `while (SelectionKeyReady(...))`: the keys at the end and the positions
      returned. `answers(n)` is what the n-th call's poll answers. */
  function Sweep<A>(keys: seq<Key<A>>, cur: Cursor, answers: nat -> Option<bv16>, n: nat): (r: (seq<Key<A>>, seq<nat>))
    requires InRange(keys, cur)
    decreases ReadyCount(keys), Left(keys, cur)
  {
    var (keys', cur', hit) := KeyReady(keys, cur, answers(n));
    if hit.None? then (keys', [])
    else
      TrueMakesProgress(keys, cur, answers(n));
      var (end, rest) := Sweep(keys', cur', answers, n + 1);
      (end, [hit.value] + rest)
  }

  /** The whole sweep, seen from a point where `done` was returned and `r` is what the last call gave. */
  ghost function SoFar<A>(r: (seq<Key<A>>, Cursor, Option<nat>), done: seq<nat>, answers: nat -> Option<bv16>, n: nat)
    : (seq<Key<A>>, seq<nat>)
    requires InRange(r.0, r.1)
  {
    if r.2.None? then (r.0, done)
    else (Sweep(r.0, r.1, answers, n).0, done + [r.2.value] + Sweep(r.0, r.1, answers, n).1)
  }

  lemma SweepUnfolds<A>(keys: seq<Key<A>>, cur: Cursor, answers: nat -> Option<bv16>, n: nat)
    requires InRange(keys, cur)
    ensures var (next, at, hit) := KeyReady(keys, cur, answers(n));
      Sweep(keys, cur, answers, n) ==
        if hit.None? then (next, []) else (Sweep(next, at, answers, n + 1).0, [hit.value] + Sweep(next, at, answers, n + 1).1)
  {
    hide KeyReady;
  }

  /** One more call. */
  lemma SweepSoFar<A>(keys: seq<Key<A>>, cur: Cursor, done: seq<nat>, answers: nat -> Option<bv16>, n: nat)
    requires InRange(keys, cur)
    ensures var (end, rest) := Sweep(keys, cur, answers, n);
      (end, done + rest) == SoFar(KeyReady(keys, cur, answers(n)), done, answers, n + 1)
    ensures Sweep(keys, cur, answers, n) == SoFar(KeyReady(keys, cur, answers(n)), [], answers, n + 1)
    ensures var r := KeyReady(keys, cur, answers(n));
      r.2.Some? ==> |Sweep(r.0, r.1, answers, n + 1).1| < |Sweep(keys, cur, answers, n).1|
  {
    hide KeyReady, Sweep;
    SweepUnfolds(keys, cur, answers, n);
    var r := KeyReady(keys, cur, answers(n));
    if r.2.Some? {
      var rest := Sweep(r.0, r.1, answers, n + 1).1;
      assert done + ([r.2.value] + rest) == done + [r.2.value] + rest;
      assert [] + [r.2.value] + rest == [r.2.value] + rest;
    } else {
      assert done + [] == done;
    }
  }

  function Max(a: int, b: int): int {
    if a < b then b else a
  }

  /** How often one sweep may return the i-th key. */
  function Quota<A>(keys: seq<Key<A>>, i: nat): int
    requires i < |keys|
  {
    if Ready(keys[i]) then Max(1, keys[i].count - keys[i].curCount) else 0
  }

  /** The sweep is in progress at the k-th key: it was returned, and nothing up to it is ready. */
  ghost predicate Underway<A>(keys: seq<Key<A>>, cur: Cursor) {
    && InRange(keys, cur) && Counted(keys)
    && (cur.At? ==> keys[cur.k].curCount >= 1 && forall i :: 0 <= i <= cur.k ==> !Ready(keys[i]))
    && (cur.Stale? ==> false)
  }

  /** What is unchanged between two states of a sweep. */
  ghost predicate SameKeys<A>(a: seq<Key<A>>, b: seq<Key<A>>) {
    && |a| == |b|
    && forall i :: 0 <= i < |a| ==>
         a[i].fd == b[i].fd && a[i].operation == b[i].operation && a[i].attachment == b[i].attachment && a[i].count == b[i].count
  }

  ghost predicate NoneReady<A>(keys: seq<Key<A>>) {
    forall i :: 0 <= i < |keys| ==> !Ready(keys[i])
  }

  function Floor(cur: Cursor): nat {
    if cur.At? then cur.k else 0
  }

  /** How often `x` occurs. */
  function Times(trace: seq<nat>, x: nat): nat {
    if trace == [] then 0 else (if trace[0] == x then 1 else 0) + Times(trace[1..], x)
  }

  lemma {:induction false} TimesMember(trace: seq<nat>, x: nat)
    ensures x in trace <==> Times(trace, x) > 0
  {
    if trace != [] {
      TimesMember(trace[1..], x);
    }
  }

  /** The positions a sweep returns from here on: sorted, every ready key, no key beyond its
      quota (the cursor's key has only its re-polls left). */
  ghost predicate Visits<A>(trace: seq<nat>, keys: seq<Key<A>>, cur: Cursor)
    requires InRange(keys, cur)
  {
    && (forall i :: 0 <= i < |trace| ==> Floor(cur) <= trace[i] < |keys|)
    && (forall i, j :: 0 <= i < j < |trace| ==> trace[i] <= trace[j])
    && (forall i :: 0 <= i < |keys| && Ready(keys[i]) ==> i in trace)
    && (forall i :: 0 <= i < |keys| ==>
          Times(trace, i) <= if cur == At(i) then Left(keys, cur) else Quota(keys, i))
  }

  /** Resuming changes no `revents`, and leaves nothing ready before the new cursor. */
  lemma ResumeKeeps<A>(keys: seq<Key<A>>, cur: Cursor, repoll: Option<bv16>)
    requires Underway(keys, cur)
    ensures var (keys1, cur1, again) := Resume(keys, cur, repoll);
      && SameKeys(keys, keys1) && Counted(keys1) && !cur1.Stale?
      && (forall i :: 0 <= i < |keys| ==> keys1[i].revents == keys[i].revents)
      && (forall i :: 0 <= i < |keys| && cur != At(i) ==> keys1[i].curCount == keys[i].curCount)
      && (cur1.At? ==> forall i :: 0 <= i < cur1.k ==> !Ready(keys[i]))
      && (cur1.Nowhere? && cur.At? ==> NoneReady(keys))
      && (again ==> cur1 == cur && keys1[cur.k].curCount == keys[cur.k].curCount + 1 && Left(keys, cur) > 0)
      && (!again && cur1.At? ==> cur.At? && (cur1 == cur || cur1.k == cur.k + 1))
  {
  }

  lemma VisitsStop<A>(keys: seq<Key<A>>, cur: Cursor, answers: nat -> Option<bv16>, n: nat)
    requires Underway(keys, cur) && KeyReady(keys, cur, answers(n)).2.None?
    ensures var keys' := KeyReady(keys, cur, answers(n)).0;
      NoneReady(keys) && NoneReady(keys') && SameKeys(keys, keys') && Visits([], keys, cur)
  {
    ResumeKeeps(keys, cur, answers(n));
    var keys1 := Resume(keys, cur, answers(n)).0;
    assert forall i :: 0 <= i < |keys| ==> Ready(keys1[i]) == Ready(keys[i]);
    hide Resume;
  }

  /** The cursor's key is returned again. */
  lemma VisitsAgain<A>(keys: seq<Key<A>>, cur: Cursor, repoll: Option<bv16>, rest: seq<nat>)
    requires Underway(keys, cur) && Resume(keys, cur, repoll).2
    requires var (keys', cur', _) := KeyReady(keys, cur, repoll); Visits(rest, keys', cur')
    ensures Visits([KeyReady(keys, cur, repoll).2.value] + rest, keys, cur)
  {
    ResumeKeeps(keys, cur, repoll);
    var keys' := Resume(keys, cur, repoll).0;
    hide Resume;
    assert forall i :: 0 <= i < |keys| ==> Ready(keys'[i]) == Ready(keys[i]);
    assert ([cur.k] + rest)[1..] == rest;
  }

  /** What the second half does after the first: the first ready key, and only it, is consumed. */
  lemma SeekHits<A>(keys: seq<Key<A>>, cur: Cursor, repoll: Option<bv16>)
    requires Underway(keys, cur) && !Resume(keys, cur, repoll).2 && KeyReady(keys, cur, repoll).2.Some?
    ensures var (keys', cur', hit) := KeyReady(keys, cur, repoll); var j := hit.value;
      && cur' == At(j) && j < |keys| == |keys'| && Ready(keys[j]) && (forall i :: 0 <= i < j ==> !Ready(keys[i]))
      && keys'[j].count == keys[j].count && keys'[j].curCount == keys[j].curCount + 1 && !Ready(keys'[j])
      && (forall i :: 0 <= i < |keys| && i != j ==> Ready(keys'[i]) == Ready(keys[i]))
      && (forall i :: j < i < |keys| ==> Quota(keys', i) == Quota(keys, i))
  {
    ResumeKeeps(keys, cur, repoll);
    var keys1 := Resume(keys, cur, repoll).0;
    assert forall i :: 0 <= i < |keys| ==> Ready(keys1[i]) == Ready(keys[i]);
    hide Resume;
  }

  /** The sweep moves on to the next ready key. */
  lemma VisitsNext<A>(keys: seq<Key<A>>, cur: Cursor, repoll: Option<bv16>, rest: seq<nat>)
    requires Underway(keys, cur) && !Resume(keys, cur, repoll).2 && KeyReady(keys, cur, repoll).2.Some?
    requires var (keys', cur', _) := KeyReady(keys, cur, repoll); Visits(rest, keys', cur')
    ensures Visits([KeyReady(keys, cur, repoll).2.value] + rest, keys, cur)
  {
    hide Resume, Seek, KeyReady, FirstReady, Ready;
    SeekHits(keys, cur, repoll);
    var (keys', cur', hit) := KeyReady(keys, cur, repoll);
    var j := hit.value;
    assert ([j] + rest)[1..] == rest;
    forall i | 0 <= i < |keys|
      ensures Times([j] + rest, i) <= if cur == At(i) then Left(keys, cur) else Quota(keys, i)
    {
      if i < j {
        TimesMember(rest, i);
      }
    }
  }

  lemma SeekKeeps<A>(keys: seq<Key<A>>, cur: Cursor, repoll: Option<bv16>)
    requires Underway(keys, cur) && KeyReady(keys, cur, repoll).2.Some?
    ensures var (keys', cur', _) := KeyReady(keys, cur, repoll); Underway(keys', cur') && SameKeys(keys, keys')
  {
    ResumeKeeps(keys, cur, repoll);
    var (keys1, _, again) := Resume(keys, cur, repoll);
    assert forall i :: 0 <= i < |keys| ==> Ready(keys1[i]) == Ready(keys[i]);
    hide Resume;
  }

  lemma SameKeysTransitive<A>(a: seq<Key<A>>, b: seq<Key<A>>, c: seq<Key<A>>)
    requires SameKeys(a, b) && SameKeys(b, c)
    ensures SameKeys(a, c)
  {
  }

  /** From a state under way the loop returns every remaining ready key in list order, none
      beyond its quota, whatever the re-polls answer, and leaves nothing ready. */
  lemma {:induction false} SweepVisits<A>(keys: seq<Key<A>>, cur: Cursor, answers: nat -> Option<bv16>, n: nat)
    requires Underway(keys, cur)
    ensures InRange(keys, cur)
    ensures var (end, trace) := Sweep(keys, cur, answers, n);
      Visits(trace, keys, cur) && NoneReady(end) && SameKeys(keys, end)
    decreases ReadyCount(keys), Left(keys, cur)
  {
    hide Answers, Resume, Seek, KeyReady, Visits, NoneReady, SameKeys, ReadyCount, Left;
    var (keys', cur', hit) := KeyReady(keys, cur, answers(n));
    if hit.None? {
      VisitsStop(keys, cur, answers, n);
    } else {
      TrueMakesProgress(keys, cur, answers(n));
      SeekKeeps(keys, cur, answers(n));
      SweepVisits(keys', cur', answers, n + 1);
      var (end, rest) := Sweep(keys', cur', answers, n + 1);
      SameKeysTransitive(keys, keys', end);
      if Resume(keys, cur, answers(n)).2 {
        VisitsAgain(keys, cur, answers(n), rest);
      } else {
        VisitsNext(keys, cur, answers(n), rest);
      }
    }
  }

  /** The `revents` that poll answers for a key that was returned `times` times let it be returned again. */
  predicate Again<A>(key: Key<A>, times: nat, answer: Option<bv16>) {
    key.curCount + times < key.count && answer.Some? && answer.value & key.operation != 0
  }

  /** How a sweep gets on from its i-th result, whose key was returned `times` times by then: it stays at
      the key exactly while there are registrations left and the next re-poll answers its operation;
      when it leaves, the key's result is its `revents` or the last re-poll's. */
  ghost predicate StaysOrMoves<A>(trace: seq<nat>, keys: seq<Key<A>>, end: seq<Key<A>>, cur: Cursor,
                            answers: nat -> Option<bv16>, n: nat, i: nat)
    requires i < |trace| && trace[i] < |keys| == |end|
  {
    var k := trace[i];
    var times := Times(trace[..i + 1], k);
    var stays := i + 1 < |trace| && trace[i + 1] == k;
    && (stays <==> Again(keys[k], times, answers(n + i + 1)))
    && (!stays ==> if times == 1 && cur != At(k) then end[k].result == keys[k].revents
                   else answers(n + i) == Some(end[k].result))
  }

  /** What a sweep leaves of its k-th key: the count starts over once every registration was used. */
  ghost predicate LeavesKey<A>(trace: seq<nat>, keys: seq<Key<A>>, end: seq<Key<A>>, cur: Cursor, k: nat)
    requires k < |keys| == |end|
  {
    var used := keys[k].curCount + Times(trace, k);
    && (k !in trace && cur != At(k) ==> end[k] == keys[k])
    && (k in trace || cur == At(k) ==> end[k].curCount == if used < keys[k].count then used else 0)
    && (k !in trace ==> end[k].result == keys[k].result)
    && end[k].revents == if k in trace && cur != At(k) then 0 else keys[k].revents
  }

  ghost predicate Proceeds<A>(trace: seq<nat>, keys: seq<Key<A>>, end: seq<Key<A>>, cur: Cursor,
                          answers: nat -> Option<bv16>, n: nat)
    requires InRange(keys, cur) && |end| == |keys|
  {
    && (forall i :: 0 <= i < |trace| ==> trace[i] < |keys|)
    && (cur.At? ==> (trace != [] && trace[0] == cur.k <==> Again(keys[cur.k], 0, answers(n))))
    && (forall i :: 0 <= i < |trace| ==> StaysOrMoves(trace, keys, end, cur, answers, n, i))
    && (forall k :: 0 <= k < |keys| ==> LeavesKey(trace, keys, end, cur, k))
  }

  /** One true result: the cursor's key again, or the next ready key. */
  lemma HitIs<A>(keys: seq<Key<A>>, cur: Cursor, answer: Option<bv16>)
    requires Underway(keys, cur) && KeyReady(keys, cur, answer).2.Some?
    ensures var (keys', cur', hit) := KeyReady(keys, cur, answer); var j := hit.value;
      && j < |keys| == |keys'| && cur' == At(j)
      && (cur == At(j) ==>
            && Again(keys[j], 0, answer)
            && keys' == keys[j := keys[j].(result := answer.value, curCount := keys[j].curCount + 1)])
      && (cur != At(j) ==>
            && (cur.At? ==> !Again(keys[cur.k], 0, answer) && cur.k < j)
            && keys'[j] == keys[j].(result := keys[j].revents, curCount := keys[j].curCount + 1, revents := 0)
            && forall i :: 0 <= i < |keys| && i != j ==>
                 keys'[i] == if cur == At(i) then Passed(keys[i]) else keys[i])
  {
    hide FirstReady;
  }

  /** What becomes of the cursor's key when the sweep leaves it. */
  function Passed<A>(key: Key<A>): Key<A> {
    if key.curCount < key.count then key else key.(curCount := 0)
  }

  lemma ProceedsNoMore<A>(keys: seq<Key<A>>, cur: Cursor, answers: nat -> Option<bv16>, n: nat)
    requires Underway(keys, cur) && KeyReady(keys, cur, answers(n)).2.None?
    ensures Proceeds([], keys, KeyReady(keys, cur, answers(n)).0, cur, answers, n)
  {
    hide FirstReady, StaysOrMoves;
  }

  lemma TimesFirst(j: nat, rest: seq<nat>, i: nat, k: nat)
    requires i <= |rest|
    ensures Times(([j] + rest)[..i + 1], k) == (if j == k then 1 else 0) + Times(rest[..i], k)
  {
    assert ([j] + rest)[..i + 1] == [j] + rest[..i];
    assert ([j] + rest[..i])[1..] == rest[..i];
  }

  lemma ProceedsMore<A>(keys: seq<Key<A>>, cur: Cursor, answers: nat -> Option<bv16>, n: nat, end: seq<Key<A>>, rest: seq<nat>)
    requires Underway(keys, cur) && KeyReady(keys, cur, answers(n)).2.Some? && |end| == |keys|
    requires var (keys', cur', _) := KeyReady(keys, cur, answers(n));
      Proceeds(rest, keys', end, cur', answers, n + 1) && Visits(rest, keys', cur') && SameKeys(keys, keys')
    ensures Proceeds([KeyReady(keys, cur, answers(n)).2.value] + rest, keys, end, cur, answers, n)
  {
    hide KeyReady, Again, Times, Quota, Left, StaysOrMoves, LeavesKey;
    var (keys', cur', hit) := KeyReady(keys, cur, answers(n));
    var j := hit.value;
    HitIs(keys, cur, answers(n));
    var trace := [j] + rest;
    forall i | 0 <= i < |trace|
      ensures trace[i] < |keys| && StaysOrMoves(trace, keys, end, cur, answers, n, i)
    {
      if i == 0 {
        ProceedsFirst(keys, cur, answers, n, end, rest);
      } else {
        assert StaysOrMoves(rest, keys', end, cur', answers, n + 1, i - 1);
        ProceedsLater(keys, cur, answers, n, end, rest, i);
      }
    }
    forall k | 0 <= k < |keys|
      ensures LeavesKey(trace, keys, end, cur, k)
    {
      assert LeavesKey(rest, keys', end, cur', k);
      LeavesKeyAlike(keys, cur, answers, n, end, rest, k);
    }
  }

  lemma ProceedsFirst<A>(keys: seq<Key<A>>, cur: Cursor, answers: nat -> Option<bv16>, n: nat, end: seq<Key<A>>, rest: seq<nat>)
    requires Underway(keys, cur) && KeyReady(keys, cur, answers(n)).2.Some? && |end| == |keys|
    requires var (keys', cur', _) := KeyReady(keys, cur, answers(n));
      Proceeds(rest, keys', end, cur', answers, n + 1) && Visits(rest, keys', cur') && SameKeys(keys, keys')
    ensures StaysOrMoves([KeyReady(keys, cur, answers(n)).2.value] + rest, keys, end, cur, answers, n, 0)
  {
    hide KeyReady, Quota, Left, StaysOrMoves, Times;
    var (keys', cur', hit) := KeyReady(keys, cur, answers(n));
    var j := hit.value;
    HitIs(keys, cur, answers(n));
    TimesFirst(j, rest, 0, j);
    TimesNone(rest[..0], j);
    var trace := [j] + rest;
    assert Again(keys'[j], 0, answers(n + 1)) == Again(keys[j], 1, answers(n + 1));
    assert LeavesKey(rest, keys', end, cur', j);
    assert !(rest != [] && rest[0] == j) ==> j !in rest;
    FirstOfTrace(trace, keys, end, cur, answers, n);
  }

  lemma TimesNone(trace: seq<nat>, k: nat)
    ensures trace == [] ==> Times(trace, k) == 0
  {
  }

  lemma FirstOfTrace<A>(trace: seq<nat>, keys: seq<Key<A>>, end: seq<Key<A>>, cur: Cursor, answers: nat -> Option<bv16>, n: nat)
    requires trace != [] && trace[0] < |keys| == |end| && Times(trace[..1], trace[0]) == 1
    requires var k := trace[0]; var stays := 1 < |trace| && trace[1] == k;
      && (stays <==> Again(keys[k], 1, answers(n + 1)))
      && (!stays ==> if cur != At(k) then end[k].result == keys[k].revents else answers(n) == Some(end[k].result))
    ensures StaysOrMoves(trace, keys, end, cur, answers, n, 0)
  {
    hide Again, Times;
  }

  lemma ProceedsLater<A>(keys: seq<Key<A>>, cur: Cursor, answers: nat -> Option<bv16>, n: nat,
            end: seq<Key<A>>, rest: seq<nat>, i: nat)
    requires InRange(keys, cur) && Underway(keys, cur) && KeyReady(keys, cur, answers(n)).2.Some? && |end| == |keys| && 0 < i <= |rest|
    requires var (keys', cur', _) := KeyReady(keys, cur, answers(n));
      && Visits(rest, keys', cur') && SameKeys(keys, keys')
      && rest[i - 1] < |keys| && StaysOrMoves(rest, keys', end, cur', answers, n + 1, i - 1)
    ensures StaysOrMoves([KeyReady(keys, cur, answers(n)).2.value] + rest, keys, end, cur, answers, n, i)
  {
    hide KeyReady, Quota, Left, Times, Again, Underway, SameKeys;
    var (keys', cur', hit) := KeyReady(keys, cur, answers(n));
    var j, k := hit.value, rest[i - 1];
    assert j <= k && cur' == At(j) by {
      HitIs(keys, cur, answers(n));
    }
    HitKeeps(keys, cur, answers(n), k);
    TimesFirst(j, rest, i, k);
    assert rest[..i][i - 1] == k;
    TimesMember(rest[..i], k);
    AgainMoves(keys'[k], keys[k], Times(rest[..i], k), if j == k then 1 else 0, answers(n + i + 1));
  }

  lemma HitKeeps<A>(keys: seq<Key<A>>, cur: Cursor, answer: Option<bv16>, k: nat)
    requires Underway(keys, cur) && KeyReady(keys, cur, answer).2.Some? && KeyReady(keys, cur, answer).2.value <= k < |keys|
    ensures var (keys', _, hit) := KeyReady(keys, cur, answer); var j := hit.value;
      && keys'[k].count == keys[k].count && keys'[k].operation == keys[k].operation
      && keys'[k].curCount == keys[k].curCount + (if j == k then 1 else 0)
      && (j != k ==> cur != At(k) && keys'[k].revents == keys[k].revents)
  {
    hide KeyReady;
    HitIs(keys, cur, answer);
  }

  lemma AgainMoves<A>(a: Key<A>, b: Key<A>, times: nat, more: nat, answer: Option<bv16>)
    requires a.count == b.count && a.operation == b.operation && a.curCount == b.curCount + more
    ensures Again(a, times, answer) == Again(b, times + more, answer)
  {
  }

  lemma LeavesKeyAlike<A>(keys: seq<Key<A>>, cur: Cursor, answers: nat -> Option<bv16>, n: nat,
            end: seq<Key<A>>, rest: seq<nat>, k: nat)
    requires Underway(keys, cur) && KeyReady(keys, cur, answers(n)).2.Some? && k < |end| == |keys|
    requires var (keys', cur', _) := KeyReady(keys, cur, answers(n));
      Visits(rest, keys', cur') && SameKeys(keys, keys') && LeavesKey(rest, keys', end, cur', k)
    ensures LeavesKey([KeyReady(keys, cur, answers(n)).2.value] + rest, keys, end, cur, k)
  {
    hide KeyReady, Again, Quota, Left, Times;
    var (keys', cur', hit) := KeyReady(keys, cur, answers(n));
    var j := hit.value;
    HitIs(keys, cur, answers(n));
    TimesFirst(j, rest, |rest|, k);
    assert ([j] + rest)[..|rest| + 1] == [j] + rest && rest[..|rest|] == rest;
    TimesMember(rest, k);
  }

  /** From a state under way a sweep goes exactly so. */
  lemma {:induction false} SweepProceeds<A>(keys: seq<Key<A>>, cur: Cursor, answers: nat -> Option<bv16>, n: nat)
    requires Underway(keys, cur)
    ensures var (end, trace) := Sweep(keys, cur, answers, n);
      |end| == |keys| && Proceeds(trace, keys, end, cur, answers, n)
    decreases ReadyCount(keys), Left(keys, cur)
  {
    hide Again, Resume, Seek, KeyReady, Visits, NoneReady, SameKeys, ReadyCount, Left, Proceeds;
    var (keys', cur', hit) := KeyReady(keys, cur, answers(n));
    SweepVisits(keys, cur, answers, n);
    if hit.None? {
      ProceedsNoMore(keys, cur, answers, n);
    } else {
      TrueMakesProgress(keys, cur, answers(n));
      SeekKeeps(keys, cur, answers(n));
      SweepProceeds(keys', cur', answers, n + 1);
      SweepVisits(keys', cur', answers, n + 1);
      var (end, rest) := Sweep(keys', cur', answers, n + 1);
      ProceedsMore(keys, cur, answers, n, end, rest);
    }
  }

  /** Sum of the registration counts of the ready keys among the first `n`. */
  function TotalCount<A>(keys: seq<Key<A>>, n: nat): int
    requires n <= |keys|
  {
    if n == 0 then 0 else TotalCount(keys, n - 1) + if Ready(keys[n - 1]) then keys[n - 1].count else 0
  }

  lemma SweepReturnsReady<A>(keys: seq<Key<A>>, answers: nat -> Option<bv16>)
    requires Counted(keys)
    ensures var (end, trace) := Sweep(keys, Nowhere, answers, 0);
      && (forall i, j :: 0 <= i < j < |trace| ==> trace[i] <= trace[j])
      && (forall k: nat :: k in trace <==> k < |keys| && Ready(keys[k]))
      && (forall k: nat :: k < |keys| ==> Times(trace, k) <= keys[k].count)
      && (forall k: nat :: k < |keys| && Ready(keys[k]) && keys[k].count == 1 ==> Times(trace, k) == 1)
      && NoneReady(end) && SameKeys(keys, end)
  {
    hide Sweep, NoneReady, SameKeys, Ready;
    SweepVisits(keys, Nowhere, answers, 0);
    var trace := Sweep(keys, Nowhere, answers, 0).1;
    forall k: nat
      ensures k in trace <==> k < |keys| && Ready(keys[k])
    {
      TimesMember(trace, k);
      if k in trace {
        assert Quota(keys, k) >= 1;
      }
    }
    forall k: nat | k < |keys|
      ensures Times(trace, k) <= keys[k].count
      ensures Ready(keys[k]) && keys[k].count == 1 ==> Times(trace, k) == 1
    {
      TimesMember(trace, k);
      assert Times(trace, k) <= Quota(keys, k);
    }
  }

  /** The whole loop of the reader, from `curKey == NULL`: it returns exactly the keys whose `revents`,
      a signed short, are positive, in list order, each at most `count` times and a once-registered one
      exactly once; it clears the `revents` of what it returned and touches no others, so that none is
      positive in the end. */
  lemma SweepReturnsReadyKeys<A>(keys: seq<Key<A>>, answers: nat -> Option<bv16>)
    requires Counted(keys)
    ensures var (end, trace) := Sweep(keys, Nowhere, answers, 0);
      && (forall i, j :: 0 <= i < j < |trace| ==> trace[i] <= trace[j])
      && (forall k: nat :: k in trace <==> k < |keys| && 1 <= keys[k].revents as int <= 0x7fff)
      && (forall k: nat :: k < |keys| ==> Times(trace, k) <= keys[k].count)
      && (forall k: nat :: k < |keys| && k in trace && keys[k].count == 1 ==> Times(trace, k) == 1)
      && SameKeys(keys, end)
      && (forall k :: 0 <= k < |keys| ==> end[k].revents == if k in trace then 0 else keys[k].revents)
      && (forall k :: 0 <= k < |keys| ==> !(1 <= end[k].revents as int <= 0x7fff))
  {
    hide Sweep, NoneReady, Ready;
    SweepReturnsReady(keys, answers);
    SweepProceeds(keys, Nowhere, answers, 0);
    var (end, trace) := Sweep(keys, Nowhere, answers, 0);
    forall k | 0 <= k < |keys|
      ensures Ready(keys[k]) <==> 1 <= keys[k].revents as int <= 0x7fff
      ensures end[k].revents == if k in trace then 0 else keys[k].revents
    {
      ReadyIs(keys[k]);
      assert LeavesKey(trace, keys, end, Nowhere, k);
    }
  }

  /** It makes at most as many true returns as the ready keys have registrations. */
  lemma SweepIsBounded<A>(keys: seq<Key<A>>, answers: nat -> Option<bv16>)
    requires Counted(keys)
    ensures |Sweep(keys, Nowhere, answers, 0).1| <= TotalCount(keys, |keys|)
  {
    hide Sweep, NoneReady, SameKeys, Ready;
    SweepReturnsReady(keys, answers);
    var trace := Sweep(keys, Nowhere, answers, 0).1;
    forall k: nat | k < |keys| && !Ready(keys[k])
      ensures Times(trace, k) == 0
    {
      TimesMember(trace, k);
    }
    Bounded(keys, Sweep(keys, Nowhere, answers, 0).1, |keys|);
  }

  function Others(trace: seq<nat>, x: nat): seq<nat> {
    if trace == [] then [] else (if trace[0] == x then [] else [trace[0]]) + Others(trace[1..], x)
  }

  /** A trace below `n` with no position beyond its count is no longer than the counts' sum. */
  lemma {:induction false} Bounded<A>(keys: seq<Key<A>>, trace: seq<nat>, n: nat)
    requires n <= |keys| && Counted(keys)
    requires forall k :: k in trace ==> k < n
    requires forall k: nat :: k < n ==> Times(trace, k) <= if Ready(keys[k]) then keys[k].count else 0
    ensures |trace| <= TotalCount(keys, n)
    decreases n
  {
    assert trace != [] ==> trace[0] in trace;
    if n > 0 {
      var rest := Others(trace, n - 1);
      forall k: nat
        ensures Times(rest, k) == if k == n - 1 then 0 else Times(trace, k)
      {
        OthersTimes(trace, n - 1, k);
      }
      forall k | k in rest
        ensures k < n - 1
      {
        TimesMember(rest, k);
        TimesMember(trace, k);
      }
      OthersTimes(trace, n - 1, n - 1);
      Bounded(keys, rest, n - 1);
    }
  }

  lemma {:induction false} OthersTimes(trace: seq<nat>, x: nat, k: nat)
    ensures |trace| == |Others(trace, x)| + Times(trace, x)
    ensures Times(Others(trace, x), k) == if k == x then 0 else Times(trace, k)
  {
    if trace != [] {
      OthersTimes(trace[1..], x, k);
      var rest := Others(trace[1..], x);
      assert [] + rest == rest && ([trace[0]] + rest)[1..] == rest;
    }
  }
}

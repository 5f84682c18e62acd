/**
 * Peer synchronisation (src/systems/MultiAvatarSystem.ts). At most once a
 * second the system reads a snapshot of every online user's state, drops
 * the peers that left, creates an entity for each new peer and overwrites
 * the state of the peers it already tracks; on every call it reports the
 * local avatar's position and facing. The snapshot read and the report are
 * the store client's business: here the snapshot is an input and the report
 * an output.
 */
module MultiAvatarSystem {
  import opened Optional
  import opened Ecs
  import opened RedisTypes

  /** The minimum time between two snapshot reads, in ms. */
  const SyncInterval: int := 1000

  const TwoTo31: int := 0x8000_0000
  const TwoTo32: int := 0x1_0000_0000

  /** JavaScript's ToInt32: the integer with the same value modulo 2^32 in [-2^31, 2^31). */
  function ToInt32(n: int): (r: int)
    ensures -TwoTo31 <= r < TwoTo31
  {
    (n + TwoTo31) % TwoTo32 - TwoTo31
  }

  /** Numbers congruent modulo 2^32 have the same ToInt32. */
  lemma ToInt32Congruent(a: int, b: int, k: int)
    requires a - b == k * TwoTo32
    ensures ToInt32(a) == ToInt32(b)
  {
    assert a + TwoTo31 == (b + TwoTo31) + k * TwoTo32;
    ModShift(b + TwoTo31, k);
  }

  /** Adding a multiple of 2^32 leaves the remainder modulo 2^32 unchanged. */
  lemma {:induction false} ModShift(n: int, k: int)
    ensures (n + k * TwoTo32) % TwoTo32 == n % TwoTo32
    decreases if k < 0 then -k else k
  {
    if k > 0 {
      ModShift(n, k - 1);
      assert n + k * TwoTo32 == (n + (k - 1) * TwoTo32) + TwoTo32;
    } else if k < 0 {
      ModShift(n, k + 1);
      assert n + k * TwoTo32 == (n + (k + 1) * TwoTo32) - TwoTo32;
    }
  }

  /** The UTF-16 code unit charCodeAt reads, for characters of the Basic Multilingual Plane. */
  function CharCode(c: char): (n: nat)
  {
    c as int
  }

  /** One round of the hash: `hash = (hash << 5) - hash + char; hash = hash & hash`. */
  function HashRound(h: int, c: char): (r: int)
    ensures -TwoTo31 <= r < TwoTo31
  {
    ToInt32(ToInt32(h * 32) - h + CharCode(c))
  }

  /** The round is the int32 wrap of 31 h + c. */
  lemma HashRoundIsTimes31(h: int, c: char)
    ensures HashRound(h, c) == ToInt32(31 * h + CharCode(c))
  {
    var s := ToInt32(h * 32);
    var k := (s - h * 32) / TwoTo32;
    assert s - h * 32 == k * TwoTo32;
    ToInt32Congruent(s - h + CharCode(c), 31 * h + CharCode(c), k);
  }

  /** The hash register after the rounds over `s`, starting from 0. */
  function HashPrefix(s: string): (r: int)
    ensures -TwoTo31 <= r < TwoTo31
    decreases |s|
  {
    if s == [] then 0 else HashRound(HashPrefix(s[..|s| - 1]), s[|s| - 1])
  }

  /** hashUserId: the absolute value of the register after every character. */
  function UserIdHash(userId: string): (r: nat)
    ensures r <= TwoTo31
    ensures userId == [] ==> r == 0
  {
    var h := HashPrefix(userId);
    if h < 0 then -h else h
  }

  /** Two small hashes worked out by hand: "a" is 97, "ab" is 97 * 31 + 98. */
  lemma HashExamples()
    ensures UserIdHash("a") == 97
    ensures UserIdHash("ab") == 3105
  {
    assert "ab"[..1] == "a";
  }

  /**
   * One user of a snapshot: the id and the parsed state. The sync logic only
   * compares ids for equality, so it is stated for any id type `K`; the
   * system itself uses strings.
   */
  datatype UserEntry<K> = UserEntry(userId: K, state: UserState)

  /** The snapshot is read from a map, so no id occurs twice. */
  predicate DistinctIds<K(==)>(users: seq<UserEntry<K>>)
  {
    forall i, j :: 0 <= i < j < |users| ==> users[i].userId != users[j].userId
  }

  /** The ids of the snapshot (the `existingUserIds` set). */
  function Ids<K(!new)>(users: seq<UserEntry<K>>): (ids: set<K>)
    ensures forall i :: 0 <= i < |users| ==> users[i].userId in ids
    ensures forall u :: u in ids ==> exists i :: 0 <= i < |users| && users[i].userId == u
  {
    set i | 0 <= i < |users| :: users[i].userId
  }

  /** Appending an entry adds its id. */
  lemma IdsSnoc<K(!new)>(users: seq<UserEntry<K>>)
    requires users != []
    ensures Ids(users) == Ids(users[..|users| - 1]) + {users[|users| - 1].userId}
  {
    var prefix := users[..|users| - 1];
    assert forall i :: 0 <= i < |prefix| ==> prefix[i] == users[i];
  }

  /** The Position a peer's snapshot state places it at. */
  function PeerPosition(st: UserState): (p: Position)
    ensures p.x == st.x as real && p.y == st.y as real
  {
    Position(st.x as real, st.y as real)
  }

  /** The Avatar a peer's snapshot state gives it: its skin and its facing. */
  function PeerAvatar(st: UserState): (a: Avatar)
    ensures a.id == st.avatarId && a.currentDirection == st.direction
  {
    Avatar(st.avatarId, st.direction)
  }

  /**
   * The part of the world and of the tracking map that a sync reads and
   * writes, as one value: the entity counter, the tracking map (peer id to
   * entity) and the five tables createRemoteAvatar and updateAvatarPosition
   * fill (Position, Avatar, RemoteAvatar.isRemote, NetworkId.userId and the
   * Renderable marker).
   */
  datatype Peers<K> = Peers(
    next: nat,
    tracked: map<K, Entity>,
    position: map<Entity, Position>,
    avatar: map<Entity, Avatar>,
    remote: map<Entity, bool>,
    net: map<Entity, nat>,
    rend: set<Entity>)

  /** The local user is not tracked, and tracked peers own distinct created entities. */
  ghost predicate TrackOk<K>(t: Peers<K>, local: K)
  {
    && local !in t.tracked
    && (forall u :: u in t.tracked ==> t.tracked[u] < t.next)
    && (forall u, v :: u in t.tracked && v in t.tracked && u != v ==> t.tracked[u] != t.tracked[v])
  }

  /** Every tracked peer's entity has a Position and an Avatar and is marked remote. */
  ghost predicate ShownOk<K>(t: Peers<K>)
  {
    forall u :: u in t.tracked ==>
      && t.tracked[u] in t.position && t.tracked[u] in t.avatar
      && Lookup(t.remote, t.tracked[u]) == Some(true)
  }

  /** The tables only mention created entities. */
  ghost predicate TablesBelow<K>(t: Peers<K>)
  {
    && AllBelow(t.position.Keys, t.next) && AllBelow(t.avatar.Keys, t.next)
    && AllBelow(t.remote.Keys, t.next) && AllBelow(t.net.Keys, t.next) && AllBelow(t.rend, t.next)
  }

  /** The invariant the system keeps between syncs. */
  ghost predicate PeersOk<K>(t: Peers<K>, local: K)
  {
    TrackOk(t, local) && ShownOk(t) && TablesBelow(t)
  }

  /** createRemoteAvatar on the tables: entity `next` gets the peer's components. */
  function Created<K>(t: Peers<K>, state: UserState, hash: nat): (r: Peers<K>)
    ensures r.next == t.next + 1 && r.tracked == t.tracked
    ensures r.position == t.position[t.next := PeerPosition(state)]
    ensures r.avatar == t.avatar[t.next := PeerAvatar(state)]
    ensures r.remote == t.remote[t.next := true] && r.net == t.net[t.next := hash]
    ensures r.rend == t.rend + {t.next}
  {
    var e := t.next;
    t.(next := e + 1,
       position := t.position[e := PeerPosition(state)],
       avatar := t.avatar[e := PeerAvatar(state)],
       remote := t.remote[e := true],
       net := t.net[e := hash],
       rend := t.rend + {e})
  }

  /** `!entityId` fails: the peer is tracked by an entity other than 0. */
  predicate Known<K>(t: Peers<K>, u: K)
  {
    u in t.tracked && t.tracked[u] != 0
  }

  /**
   * One step of the second loop of syncUsersFromRedis: the local user is
   * skipped; a peer with no entity, or with entity 0 (which `!entityId`
   * reads as none), gets a new one; any other peer's entity is overwritten.
   */
  function SyncEntry<K(==)>(t: Peers<K>, u: UserEntry<K>, local: K, hash: K -> nat): (r: Peers<K>)
    ensures u.userId == local ==> r == t
    ensures u.userId != local ==> r.tracked.Keys == t.tracked.Keys + {u.userId}
    ensures Known(t, u.userId) ==> r.next == t.next && r.tracked == t.tracked
    ensures u.userId != local && !Known(t, u.userId) ==>
      r.next == t.next + 1 && r.tracked[u.userId] == t.next
  {
    if u.userId == local then t
    else if Known(t, u.userId) then
      var e := t.tracked[u.userId];
      t.(position := t.position[e := PeerPosition(u.state)],
         avatar := t.avatar[e := PeerAvatar(u.state)])
    else
      Created(t, u.state, hash(u.userId)).(tracked := t.tracked[u.userId := t.next])
  }

  /** The second loop over the snapshot, in snapshot order. */
  function SyncEntries<K(==)>(t: Peers<K>, users: seq<UserEntry<K>>, local: K, hash: K -> nat): (r: Peers<K>)
    ensures t.next <= r.next <= t.next + |users|
    ensures t.tracked.Keys <= r.tracked.Keys
    decreases |users|
  {
    if users == [] then t
    else SyncEntry(SyncEntries(t, users[..|users| - 1], local, hash), users[|users| - 1], local, hash)
  }

  /** The first loop of syncUsersFromRedis: keep the local id and the ids of the snapshot. */
  function Pruned<K(!new)>(tracked: map<K, Entity>, users: seq<UserEntry<K>>, local: K): (r: map<K, Entity>)
    ensures forall u :: u in r <==> u in tracked && (u == local || u in Ids(users))
    ensures forall u :: u in r ==> r[u] == tracked[u]
  {
    map u | u in tracked && (u == local || u in Ids(users)) :: tracked[u]
  }

  /** syncUsersFromRedis on the tables: prune, then apply the snapshot. */
  function Synced<K(==,!new)>(t: Peers<K>, users: seq<UserEntry<K>>, local: K, hash: K -> nat): (r: Peers<K>)
    ensures t.next <= r.next <= t.next + |users|
  {
    SyncEntries(t.(tracked := Pruned(t.tracked, users, local)), users, local, hash)
  }

  /** Snapshot peer `u` is tracked and its entity shows its snapshot state. */
  ghost predicate Shows<K>(t: Peers<K>, u: UserEntry<K>)
  {
    && u.userId in t.tracked
    && var e := t.tracked[u.userId];
    && e in t.position && t.position[e] == PeerPosition(u.state)
    && e in t.avatar && t.avatar[e] == PeerAvatar(u.state)
  }

  /**
   * Peer `u` owns an entity created at or after counter value `n`, marked
   * remote, carrying the hash of `u` as its network id, and renderable.
   */
  ghost predicate Fresh<K>(t: Peers<K>, u: K, n: nat, hash: K -> nat)
  {
    && u in t.tracked
    && var e := t.tracked[u];
    && n <= e && Lookup(t.remote, e) == Some(true) && Lookup(t.net, e) == Some(hash(u)) && e in t.rend
  }

  lemma FreshWeaken<K>(t: Peers<K>, v: K, n: nat, m: nat, hash: K -> nat)
    requires Fresh(t, v, n, hash) && m <= n
    ensures Fresh(t, v, m, hash)
  {
  }

  /** The entities of `t` that a peer of the snapshot already owns. */
  ghost function Claimed<K(!new)>(t: Peers<K>, users: seq<UserEntry<K>>): set<Entity>
  {
    set v | v in t.tracked && v in Ids(users) :: t.tracked[v]
  }

  // One step of the snapshot loop, property by property.

  lemma StepTrackOk<K>(t: Peers<K>, u: UserEntry<K>, local: K, hash: K -> nat)
    requires TrackOk(t, local)
    ensures TrackOk(SyncEntry(t, u, local, hash), local)
  {
  }

  lemma StepShownOk<K>(t: Peers<K>, u: UserEntry<K>, local: K, hash: K -> nat)
    requires ShownOk(t)
    ensures ShownOk(SyncEntry(t, u, local, hash))
  {
  }

  lemma StepBelow<K>(t: Peers<K>, u: UserEntry<K>, local: K, hash: K -> nat)
    requires TrackOk(t, local) && TablesBelow(t)
    ensures TablesBelow(SyncEntry(t, u, local, hash))
  {
  }

  lemma StepTracked<K>(t: Peers<K>, u: UserEntry<K>, local: K, hash: K -> nat)
    ensures var r := SyncEntry(t, u, local, hash);
      && r.next >= t.next
      && (forall v :: v in r.tracked <==> v in t.tracked || (v == u.userId && v != local))
      && (forall v :: v != u.userId ==> Lookup(r.tracked, v) == Lookup(t.tracked, v))
      && (forall v :: Known(t, v) ==> Lookup(r.tracked, v) == Lookup(t.tracked, v))
      && (forall v :: v in r.tracked ==> Lookup(r.tracked, v) == Lookup(t.tracked, v) || r.tracked[v] >= t.next)
  {
  }

  lemma StepShows<K>(t: Peers<K>, u: UserEntry<K>, local: K, hash: K -> nat)
    requires PeersOk(t, local)
    ensures var r := SyncEntry(t, u, local, hash);
      && (u.userId != local ==> Shows(r, u))
      && (forall v: UserEntry<K> :: v.userId != u.userId && Shows(t, v) ==> Shows(r, v))
  {
  }

  lemma StepFresh<K>(t: Peers<K>, u: UserEntry<K>, local: K, hash: K -> nat, n: nat)
    requires PeersOk(t, local) && n <= t.next
    ensures var r := SyncEntry(t, u, local, hash);
      && (u.userId != local && !Known(t, u.userId) ==> Fresh(r, u.userId, t.next, hash))
      && (forall v :: Fresh(t, v, n, hash) ==> Fresh(r, v, n, hash))
  {
  }

  lemma StepFrame<K>(t: Peers<K>, u: UserEntry<K>, local: K, hash: K -> nat)
    requires PeersOk(t, local)
    ensures var r := SyncEntry(t, u, local, hash);
      && (forall e :: e < t.next ==>
            && Lookup(r.remote, e) == Lookup(t.remote, e) && Lookup(r.net, e) == Lookup(t.net, e)
            && (e in r.rend <==> e in t.rend)
            && (Lookup(t.tracked, u.userId) != Some(e) ==>
                  Lookup(r.position, e) == Lookup(t.position, e) && Lookup(r.avatar, e) == Lookup(t.avatar, e)))
      && (forall e :: t.next <= e < r.next ==> Lookup(r.remote, e) == Some(true))
  {
  }

  // The whole snapshot loop, by induction on the snapshot.

  /** The loop keeps the invariant. */
  lemma {:induction false} EntriesOk<K>(t: Peers<K>, users: seq<UserEntry<K>>, local: K, hash: K -> nat)
    requires PeersOk(t, local)
    ensures PeersOk(SyncEntries(t, users, local, hash), local)
    decreases |users|
  {
    if users != [] {
      var prefix := users[..|users| - 1];
      var r1 := SyncEntries(t, prefix, local, hash);
      EntriesOk(t, prefix, local, hash);
      StepTrackOk(r1, users[|users| - 1], local, hash);
      StepShownOk(r1, users[|users| - 1], local, hash);
      StepBelow(r1, users[|users| - 1], local, hash);
    }
  }

  /**
   * What the loop does to the tracking map: the counter never goes back;
   * exactly the non-local ids of the snapshot are added; an id the snapshot
   * does not mention, and a peer with a nonzero entity, keep their entry;
   * any other entry is a new entity.
   */
  lemma {:induction false} EntriesTracked<K(!new)>(t: Peers<K>, users: seq<UserEntry<K>>, local: K, hash: K -> nat)
    ensures var r := SyncEntries(t, users, local, hash);
      && r.next >= t.next
      && (forall v :: v in r.tracked <==> v in t.tracked || (v in Ids(users) && v != local))
      && (forall v :: v !in Ids(users) ==> Lookup(r.tracked, v) == Lookup(t.tracked, v))
      && (forall v :: Known(t, v) ==> Lookup(r.tracked, v) == Lookup(t.tracked, v))
      && (forall v :: v in r.tracked ==> Lookup(r.tracked, v) == Lookup(t.tracked, v) || r.tracked[v] >= t.next)
    decreases |users|
  {
    if users != [] {
      var prefix := users[..|users| - 1];
      EntriesTracked(t, prefix, local, hash);
      StepTracked(SyncEntries(t, prefix, local, hash), users[|users| - 1], local, hash);
      IdsSnoc(users);
    }
  }

  /** With distinct ids, every non-local peer of the snapshot ends up shown with its snapshot state. */
  lemma {:induction false} EntriesShows<K>(t: Peers<K>, users: seq<UserEntry<K>>, local: K, hash: K -> nat)
    requires PeersOk(t, local) && DistinctIds(users)
    ensures forall i :: 0 <= i < |users| && users[i].userId != local ==> Shows(SyncEntries(t, users, local, hash), users[i])
    decreases |users|
  {
    if users != [] {
      var prefix := users[..|users| - 1];
      var u := users[|users| - 1];
      EntriesShows(t, prefix, local, hash);
      EntriesOk(t, prefix, local, hash);
      StepShows(SyncEntries(t, prefix, local, hash), u, local, hash);
      assert forall i :: 0 <= i < |prefix| ==> prefix[i] == users[i] && prefix[i].userId != u.userId;
    }
  }

  /** A non-local peer of the snapshot that had no nonzero entity gets a fresh one. */
  lemma {:induction false} EntriesFresh<K(!new)>(t: Peers<K>, users: seq<UserEntry<K>>, local: K, hash: K -> nat)
    requires PeersOk(t, local)
    ensures forall v :: v in Ids(users) && v != local && !Known(t, v) ==> Fresh(SyncEntries(t, users, local, hash), v, t.next, hash)
    decreases |users|
  {
    if users != [] {
      var prefix := users[..|users| - 1];
      var u := users[|users| - 1];
      var r1 := SyncEntries(t, prefix, local, hash);
      EntriesFresh(t, prefix, local, hash);
      EntriesOk(t, prefix, local, hash);
      EntriesTracked(t, prefix, local, hash);
      StepFresh(r1, u, local, hash, t.next);
      IdsSnoc(users);
      if u.userId != local && !Known(r1, u.userId) {
        FreshWeaken(SyncEntry(r1, u, local, hash), u.userId, r1.next, t.next, hash);
      }
    }
  }

  /**
   * What the loop leaves alone: the RemoteAvatar, NetworkId and Renderable
   * components of every existing entity, and the Position and Avatar of
   * every existing entity no snapshot peer owns; every entity it creates is
   * remote.
   */
  lemma {:induction false} EntriesFrame<K(!new)>(t: Peers<K>, users: seq<UserEntry<K>>, local: K, hash: K -> nat)
    requires PeersOk(t, local)
    ensures var r := SyncEntries(t, users, local, hash);
      && (forall e :: e < t.next ==>
            && Lookup(r.remote, e) == Lookup(t.remote, e) && Lookup(r.net, e) == Lookup(t.net, e)
            && (e in r.rend <==> e in t.rend)
            && (e !in Claimed(t, users) ==>
                  Lookup(r.position, e) == Lookup(t.position, e) && Lookup(r.avatar, e) == Lookup(t.avatar, e)))
      && (forall e :: t.next <= e < r.next ==> Lookup(r.remote, e) == Some(true))
    decreases |users|
  {
    if users != [] {
      var prefix := users[..|users| - 1];
      var u := users[|users| - 1];
      var r1 := SyncEntries(t, prefix, local, hash);
      EntriesFrame(t, prefix, local, hash);
      EntriesOk(t, prefix, local, hash);
      EntriesTracked(t, prefix, local, hash);
      StepFrame(r1, u, local, hash);
      IdsSnoc(users);
      forall e | e < t.next && e !in Claimed(t, users)
        ensures Lookup(r1.tracked, u.userId) != Some(e)
        ensures e !in Claimed(t, prefix)
      {
      }
    }
  }

  // The whole of syncUsersFromRedis.

  /** Pruning keeps the invariant. */
  lemma PrunedOk<K(!new)>(t: Peers<K>, users: seq<UserEntry<K>>, local: K)
    requires PeersOk(t, local)
    ensures PeersOk(t.(tracked := Pruned(t.tracked, users, local)), local)
  {
  }

  /** A sync keeps the invariant and never moves the counter back. */
  lemma SyncedOk<K(!new)>(t: Peers<K>, users: seq<UserEntry<K>>, local: K, hash: K -> nat)
    requires PeersOk(t, local)
    ensures PeersOk(Synced(t, users, local, hash), local)
    ensures Synced(t, users, local, hash).next >= t.next
  {
    PrunedOk(t, users, local);
    EntriesOk(t.(tracked := Pruned(t.tracked, users, local)), users, local, hash);
    EntriesTracked(t.(tracked := Pruned(t.tracked, users, local)), users, local, hash);
  }

  /** After a sync the tracked peers are exactly the snapshot's users other than the local one. */
  lemma SyncedTracksSnapshot<K(!new)>(t: Peers<K>, users: seq<UserEntry<K>>, local: K, hash: K -> nat)
    requires PeersOk(t, local)
    ensures Synced(t, users, local, hash).tracked.Keys == Ids(users) - {local}
  {
    EntriesTracked(t.(tracked := Pruned(t.tracked, users, local)), users, local, hash);
  }

  /** After a sync every non-local peer of the snapshot is shown with its snapshot state. */
  lemma SyncedShows<K(!new)>(t: Peers<K>, users: seq<UserEntry<K>>, local: K, hash: K -> nat)
    requires PeersOk(t, local) && DistinctIds(users)
    ensures forall i :: 0 <= i < |users| && users[i].userId != local ==> Shows(Synced(t, users, local, hash), users[i])
  {
    PrunedOk(t, users, local);
    EntriesShows(t.(tracked := Pruned(t.tracked, users, local)), users, local, hash);
  }

  /** A peer that stays online and already had a nonzero entity keeps that entity. */
  lemma SyncedKeeps<K(!new)>(t: Peers<K>, users: seq<UserEntry<K>>, local: K, hash: K -> nat)
    requires PeersOk(t, local)
    ensures forall v :: v in Ids(users) && Known(t, v) ==> Lookup(Synced(t, users, local, hash).tracked, v) == Some(t.tracked[v])
  {
    EntriesTracked(t.(tracked := Pruned(t.tracked, users, local)), users, local, hash);
  }

  /** Any other non-local peer of the snapshot gets a new remote, renderable entity carrying its hash. */
  lemma SyncedFresh<K(!new)>(t: Peers<K>, users: seq<UserEntry<K>>, local: K, hash: K -> nat)
    requires PeersOk(t, local)
    ensures forall v :: v in Ids(users) && v != local && !Known(t, v) ==> Fresh(Synced(t, users, local, hash), v, t.next, hash)
  {
    var p := t.(tracked := Pruned(t.tracked, users, local));
    PrunedOk(t, users, local);
    EntriesFresh(p, users, local, hash);
    assert forall v :: Known(p, v) ==> Known(t, v);
  }

  /**
   * A sync removes no component: the entity of a departed peer keeps all
   * of its components, and no existing entity changes except in the
   * Position and Avatar of an entity a snapshot peer owns.
   */
  lemma SyncedFrame<K(!new)>(t: Peers<K>, users: seq<UserEntry<K>>, local: K, hash: K -> nat)
    requires PeersOk(t, local)
    ensures var r := Synced(t, users, local, hash);
      && (forall e :: e < t.next ==>
            && Lookup(r.remote, e) == Lookup(t.remote, e) && Lookup(r.net, e) == Lookup(t.net, e)
            && (e in r.rend <==> e in t.rend)
            && (e !in Claimed(t, users) ==>
                  Lookup(r.position, e) == Lookup(t.position, e) && Lookup(r.avatar, e) == Lookup(t.avatar, e)))
      && (forall e :: t.next <= e < r.next ==> Lookup(r.remote, e) == Some(true))
  {
    var p := t.(tracked := Pruned(t.tracked, users, local));
    PrunedOk(t, users, local);
    EntriesFrame(p, users, local, hash);
    assert Claimed(p, users) <= Claimed(t, users);
  }

  /**
   * `!entityId` treats entity 0 as "no entity": a peer tracked by entity 0
   * is given a second entity on every sync, and entity 0 is left behind,
   * still remote and still showing the peer's old state.
   */
  lemma EntityZeroRecreated<K>(t: Peers<K>, u: UserEntry<K>, local: K, hash: K -> nat)
    requires PeersOk(t, local) && u.userId != local && Lookup(t.tracked, u.userId) == Some(0)
    ensures var r := SyncEntry(t, u, local, hash);
      && r.tracked[u.userId] == t.next > 0 && r.next == t.next + 1
      && Lookup(r.position, 0) == Lookup(t.position, 0) && Lookup(r.avatar, 0) == Lookup(t.avatar, 0)
      && Lookup(r.remote, 0) == Some(true)
  {
  }

  // updateLocalAvatarToRedis.

  /** What the local push sends: the position and the stored facing. */
  datatype LocalState = LocalState(x: real, y: real, direction: int)

  /**
   * Entity `e` matches the avatar query (Position and Avatar) and is not
   * remote: an entity without the RemoteAvatar component reads as local.
   */
  predicate IsLocalAt<K>(t: Peers<K>, e: Entity)
  {
    e in t.position && e in t.avatar && !(e in t.remote && t.remote[e])
  }

  /** The first local avatar from `e` on, in entity order. */
  function FirstLocalFrom<K>(t: Peers<K>, e: Entity): (r: Option<Entity>)
    ensures r.Some? ==>
      && e <= r.value < t.next && IsLocalAt(t, r.value)
      && forall k :: e <= k < r.value ==> !IsLocalAt(t, k)
    ensures r.None? ==> forall k :: e <= k < t.next ==> !IsLocalAt(t, k)
    decreases t.next - e
  {
    if e >= t.next then None
    else if IsLocalAt(t, e) then Some(e)
    else FirstLocalFrom(t, e + 1)
  }

  /** The state updateLocalAvatarToRedis sends: the first local avatar's, if there is one. */
  function LocalPush<K>(t: Peers<K>): (r: Option<LocalState>)
    ensures r.None? <==> forall k: Entity :: k < t.next ==> !IsLocalAt(t, k)
    ensures r.Some? ==> exists e: Entity ::
      && e < t.next && IsLocalAt(t, e) && (forall k: Entity :: k < e ==> !IsLocalAt(t, k))
      && r.value == LocalState(t.position[e].x, t.position[e].y, t.avatar[e].currentDirection)
  {
    match FirstLocalFrom(t, 0)
    case None => None
    case Some(e) => Some(LocalState(t.position[e].x, t.position[e].y, t.avatar[e].currentDirection))
  }

  /** Two worlds that agree on their local avatars from `e` on find the same first one. */
  lemma {:induction false} SameFirstLocal<K>(t: Peers<K>, r: Peers<K>, e: Entity)
    requires t.next <= r.next
    requires forall k :: e <= k < t.next ==> (IsLocalAt(t, k) <==> IsLocalAt(r, k))
    requires forall k :: t.next <= k < r.next ==> !IsLocalAt(r, k)
    ensures FirstLocalFrom(t, e) == FirstLocalFrom(r, e)
    decreases t.next - e
  {
    if e < t.next && !IsLocalAt(t, e) {
      SameFirstLocal(t, r, e + 1);
    }
  }

  /**
   * A sync never changes what the local push reports: peers' entities are
   * all remote, so neither the choice of the local avatar nor its state moves.
   */
  lemma SyncedKeepsLocalPush<K(!new)>(t: Peers<K>, users: seq<UserEntry<K>>, local: K, hash: K -> nat)
    requires PeersOk(t, local)
    ensures LocalPush(Synced(t, users, local, hash)) == LocalPush(t)
  {
    var r := Synced(t, users, local, hash);
    SyncedOk(t, users, local, hash);
    SyncedFrame(t, users, local, hash);
    forall k: Entity | k < t.next
      ensures IsLocalAt(t, k) <==> IsLocalAt(r, k)
      ensures IsLocalAt(t, k) ==> k !in Claimed(t, users)
    {
      if k in Claimed(t, users) {
        var v :| v in t.tracked && v in Ids(users) && t.tracked[v] == k;
        assert Lookup(t.remote, k) == Some(true);
      } else {
        assert Lookup(r.position, k) == Lookup(t.position, k) && Lookup(r.avatar, k) == Lookup(t.avatar, k);
        assert Lookup(r.remote, k) == Lookup(t.remote, k);
      }
    }
    forall k | t.next <= k < r.next
      ensures !IsLocalAt(r, k)
    {
      assert Lookup(r.remote, k) == Some(true);
    }
    SameFirstLocal(t, r, 0);
    var f := FirstLocalFrom(t, 0);
    if f.Some? {
      assert f.value !in Claimed(t, users);
    }
  }

  class MultiAvatarSystem {
    /** The local user's id, which the source asks of its store client (getUserId). */
    const localUserId: string
    /** Peer user id to the entity that shows it. */
    var avatarEntities: map<string, Entity>
    var lastSyncTime: int

    /** The tables a sync reads and writes, seen as one value. */
    ghost function PeersIn(w: World): (t: Peers<string>)
      reads this, w
    {
      Peers(w.nextEntity, avatarEntities, w.position, w.avatar, w.remoteAvatar, w.networkId, w.renderable)
    }

    /** The tracking map and the world satisfy the sync invariant. */
    ghost predicate Valid(w: World)
      reads this, w
    {
      PeersOk(PeersIn(w), localUserId)
    }

    /** A new system tracks nobody and has never synchronised. */
    constructor (localUserId: string)
      ensures this.localUserId == localUserId
      ensures avatarEntities == map[] && lastSyncTime == 0
    {
      this.localUserId := localUserId;
      avatarEntities := map[];
      lastSyncTime := 0;
    }

    /** hashUserId. */
    method HashUserId(userId: string) returns (h: nat)
      ensures h == UserIdHash(userId)
    {
      var hash := 0;
      var i := 0;
      while i < |userId|
        invariant i <= |userId|
        invariant hash == HashPrefix(userId[..i])
      {
        assert userId[..i + 1][..i] == userId[..i];
        hash := ToInt32(ToInt32(hash * 32) - hash + CharCode(userId[i]));
        i := i + 1;
      }
      assert userId[..i] == userId;
      h := if hash < 0 then -hash else hash;
    }

    /** createRemoteAvatar: a fresh entity seeded with the peer's snapshot state. */
    method CreateRemoteAvatar(w: World, userId: string, state: UserState) returns (entity: Entity)
      requires w.Valid()
      modifies w`nextEntity, w`position, w`avatar, w`remoteAvatar, w`networkId, w`renderable
      ensures entity == old(w.nextEntity)
      ensures PeersIn(w) == Created(old(PeersIn(w)), state, UserIdHash(userId))
      ensures w.Valid()
    {
      entity := w.AddEntity();
      var hash := HashUserId(userId);
      w.position, w.avatar := w.position[entity := PeerPosition(state)], w.avatar[entity := PeerAvatar(state)];
      w.remoteAvatar, w.networkId := w.remoteAvatar[entity := true], w.networkId[entity := hash];
      w.renderable := w.renderable + {entity};
    }

    /** updateAvatarPosition: overwrite position, facing and skin with the snapshot state. */
    method UpdateAvatarPosition(w: World, entityId: Entity, state: UserState)
      modifies w`position, w`avatar
      ensures w.position == old(w.position)[entityId := PeerPosition(state)]
      ensures w.avatar == old(w.avatar)[entityId := PeerAvatar(state)]
    {
      w.position := w.position[entityId := PeerPosition(state)];
      w.avatar := w.avatar[entityId := PeerAvatar(state)];
    }

    /** removeAvatarEntity: forget the peer; its entity and components stay in the world. */
    method RemoveAvatarEntity(userId: string)
      modifies this`avatarEntities
      ensures avatarEntities == old(avatarEntities) - {userId}
    {
      avatarEntities := avatarEntities - {userId};
    }

    /** The first loop of syncUsersFromRedis: drop every peer missing from the snapshot. */
    method PruneDeparted(users: seq<UserEntry<string>>)
      modifies this`avatarEntities
      ensures avatarEntities == Pruned(old(avatarEntities), users, localUserId)
    {
      var existing := Ids(users);
      var pending := avatarEntities.Keys;
      while pending != {}
        invariant forall u :: u in avatarEntities <==>
          u in old(avatarEntities) && (u in pending || u == localUserId || u in existing)
        invariant forall u :: u in avatarEntities ==> avatarEntities[u] == old(avatarEntities)[u]
        decreases pending
      {
        var u :| u in pending;
        if u != localUserId && u !in existing {
          RemoveAvatarEntity(u);
        }
        pending := pending - {u};
      }
    }

    /** One pass of the second loop of syncUsersFromRedis. */
    method ApplyUser(w: World, u: UserEntry<string>)
      requires w.Valid() && Valid(w)
      modifies this`avatarEntities, w`nextEntity, w`position, w`avatar, w`remoteAvatar, w`networkId, w`renderable
      ensures PeersIn(w) == SyncEntry(old(PeersIn(w)), u, localUserId, UserIdHash)
      ensures w.Valid() && Valid(w)
    {
      ghost var t := PeersIn(w);
      StepTrackOk(t, u, localUserId, UserIdHash);
      StepShownOk(t, u, localUserId, UserIdHash);
      StepBelow(t, u, localUserId, UserIdHash);
      if u.userId == localUserId {
        return;
      }
      var entityId := Lookup(avatarEntities, u.userId);
      if entityId.None? || entityId.value == 0 {
        var e := CreateRemoteAvatar(w, u.userId, u.state);
        avatarEntities := avatarEntities[u.userId := e];
      } else {
        UpdateAvatarPosition(w, entityId.value, u.state);
      }
    }

    /** The second loop of syncUsersFromRedis, in snapshot order. */
    method ApplySnapshot(w: World, users: seq<UserEntry<string>>)
      requires w.Valid() && Valid(w)
      modifies this`avatarEntities, w`nextEntity, w`position, w`avatar, w`remoteAvatar, w`networkId, w`renderable
      ensures PeersIn(w) == SyncEntries(old(PeersIn(w)), users, localUserId, UserIdHash)
      ensures w.Valid() && Valid(w)
    {
      var i := 0;
      while i < |users|
        invariant i <= |users|
        invariant w.Valid() && Valid(w)
        invariant PeersIn(w) == SyncEntries(old(PeersIn(w)), users[..i], localUserId, UserIdHash)
      {
        assert users[..i + 1][..i] == users[..i];
        ApplyUser(w, users[i]);
        i := i + 1;
      }
      assert users[..i] == users;
    }

    /** syncUsersFromRedis, with the snapshot getAllUsers returned. */
    method SyncUsers(w: World, users: seq<UserEntry<string>>)
      requires w.Valid() && Valid(w)
      modifies this`avatarEntities, w`nextEntity, w`position, w`avatar, w`remoteAvatar, w`networkId, w`renderable
      ensures PeersIn(w) == Synced(old(PeersIn(w)), users, localUserId, UserIdHash)
      ensures w.Valid() && Valid(w)
    {
      PrunedOk(PeersIn(w), users, localUserId);
      PruneDeparted(users);
      ApplySnapshot(w, users);
    }

    /** updateLocalAvatarToRedis: the state of the first local avatar, in entity order. */
    method LocalAvatarState(w: World) returns (push: Option<LocalState>)
      ensures push == LocalPush(PeersIn(w))
    {
      var e := 0;
      while e < w.nextEntity
        invariant FirstLocalFrom(PeersIn(w), e) == FirstLocalFrom(PeersIn(w), 0)
        decreases w.nextEntity - e
      {
        if e in w.position && e in w.avatar && !(e in w.remoteAvatar && w.remoteAvatar[e]) {
          return Some(LocalState(w.position[e].x, w.position[e].y, w.avatar[e].currentDirection));
        }
        e := e + 1;
      }
      return None;
    }

    /**
     * execute: sync when at least SyncInterval ms have passed since the last
     * sync and record the time, then report the local avatar. `now` is the
     * clock reading and `users` the snapshot the store would return.
     */
    method Execute(w: World, now: int, users: seq<UserEntry<string>>) returns (push: Option<LocalState>)
      requires w.Valid() && Valid(w)
      modifies this`avatarEntities, this`lastSyncTime
      modifies w`nextEntity, w`position, w`avatar, w`remoteAvatar, w`networkId, w`renderable
      ensures old(now - lastSyncTime >= SyncInterval) ==>
        PeersIn(w) == Synced(old(PeersIn(w)), users, localUserId, UserIdHash) && lastSyncTime == now
      ensures old(now - lastSyncTime < SyncInterval) ==>
        PeersIn(w) == old(PeersIn(w)) && lastSyncTime == old(lastSyncTime)
      ensures push == LocalPush(PeersIn(w)) && push == LocalPush(old(PeersIn(w)))
      ensures w.Valid() && Valid(w)
    {
      SyncedKeepsLocalPush(PeersIn(w), users, localUserId, UserIdHash);
      if now - lastSyncTime >= SyncInterval {
        SyncUsers(w, users);
        lastSyncTime := now;
      }
      push := LocalAvatarState(w);
    }

    /** getRemoteAvatarCount. */
    method RemoteAvatarCount() returns (n: nat)
      ensures n == |avatarEntities|
    {
      n := |avatarEntities|;
    }

    /** getRemoteAvatarUserIds: every tracked id once. */
    method RemoteAvatarUserIds() returns (ids: seq<string>)
      ensures forall u :: u in ids <==> u in avatarEntities
      ensures forall i, j :: 0 <= i < j < |ids| ==> ids[i] != ids[j]
    {
      ids := [];
      var pending := avatarEntities.Keys;
      while pending != {}
        invariant forall u :: u in ids <==> u in avatarEntities && u !in pending
        invariant pending <= avatarEntities.Keys
        invariant forall i, j :: 0 <= i < j < |ids| ==> ids[i] != ids[j]
        decreases pending
      {
        var u :| u in pending;
        ids := ids + [u];
        pending := pending - {u};
      }
    }

    /** cleanup: forget every peer. */
    method Cleanup()
      modifies this`avatarEntities
      ensures avatarEntities == map[]
    {
      avatarEntities := map[];
    }
  }
}

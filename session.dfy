/**
 * The local avatar the canvas creates at start-up (src/components/AvatarCanvas.tsx):
 * a fresh entity with a Position at the initial point, an Avatar facing
 * CENTER, an idle Movement aimed at that point, four cleared Input flags,
 * and the EventQueue and Renderable markers. It has no RemoteAvatar, so it
 * is the avatar the peer sync reports.
 */
module Session {
  import opened Optional
  import opened Ecs
  import opened AvatarTypes
  import opened MultiAvatarSystem

  /** The Peers view of the tables after the local avatar is added at entity `t.next`. */
  function WithLocal<K>(t: Peers<K>, x: real, y: real, avatarId: int): (r: Peers<K>)
    ensures r.next == t.next + 1 && r.tracked == t.tracked
    ensures r.position == t.position[t.next := Position(x, y)]
    ensures r.avatar == t.avatar[t.next := Avatar(avatarId, DirectionValue(Center))]
    ensures r.remote == t.remote && r.net == t.net && r.rend == t.rend + {t.next}
  {
    t.(next := t.next + 1,
       position := t.position[t.next := Position(x, y)],
       avatar := t.avatar[t.next := Avatar(avatarId, DirectionValue(Center))],
       rend := t.rend + {t.next})
  }

  /** Adding the local avatar keeps the peer-sync invariant. */
  lemma WithLocalOk<K>(t: Peers<K>, local: K, x: real, y: real, avatarId: int)
    requires PeersOk(t, local)
    ensures PeersOk(WithLocal(t, x, y, avatarId), local)
  {
  }

  /**
   * In a world with no local avatar yet, the new one is what the local push
   * reports: its initial point, facing CENTER.
   */
  lemma {:induction false} WithLocalIsPushed<K>(t: Peers<K>, x: real, y: real, avatarId: int)
    requires TablesBelow(t) && LocalPush(t) == None
    ensures LocalPush(WithLocal(t, x, y, avatarId)) == Some(LocalState(x, y, DirectionValue(Center)))
  {
    var r := WithLocal(t, x, y, avatarId);
    assert IsLocalAt(r, t.next) by {
      assert t.next !in t.remote;
    }
    assert FirstLocalFrom(t, 0).None?;
    forall k: Entity | k < t.next
      ensures !IsLocalAt(r, k)
    {
      assert !IsLocalAt(t, k);
    }
    NoLocalBelow(r, 0, t.next);
  }

  /** With no local avatar in [e, n) and one at n, the first local one from e is n. */
  lemma {:induction false} NoLocalBelow<K>(t: Peers<K>, e: Entity, n: Entity)
    requires e <= n < t.next && IsLocalAt(t, n)
    requires forall k :: e <= k < n ==> !IsLocalAt(t, k)
    ensures FirstLocalFrom(t, e) == Some(n)
    decreases n - e
  {
    if e < n {
      NoLocalBelow(t, e + 1, n);
    }
  }

  /** The local avatar entity set-up of the canvas. */
  method CreateLocalAvatar(w: World, sync: MultiAvatarSystem,
                           initialX: real, initialY: real, avatarId: int, moveSpeed: real)
    returns (e: Entity)
    requires w.Valid() && sync.Valid(w)
    modifies w`nextEntity, w`position, w`avatar, w`movement, w`input, w`eventQueue, w`renderable
    ensures e == old(w.nextEntity)
    ensures sync.PeersIn(w) == WithLocal(old(sync.PeersIn(w)), initialX, initialY, avatarId)
    ensures w.movement == old(w.movement)[e := Movement(moveSpeed, initialX, initialY, false)]
    ensures w.input == old(w.input)[e := Input(false, false, false, false)]
    ensures w.eventQueue == old(w.eventQueue) + {e}
    ensures w.Valid() && sync.Valid(w)
  {
    WithLocalOk(sync.PeersIn(w), sync.localUserId, initialX, initialY, avatarId);
    e := w.AddEntity();
    w.position, w.avatar := w.position[e := Position(initialX, initialY)], w.avatar[e := Avatar(avatarId, DirectionValue(Center))];
    w.movement, w.input := w.movement[e := Movement(moveSpeed, initialX, initialY, false)], w.input[e := Input(false, false, false, false)];
    w.eventQueue, w.renderable := w.eventQueue + {e}, w.renderable + {e};
  }
}

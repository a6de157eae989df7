/**
 * Connection bookkeeping of an electric post: two lists of connections, one
 * for the wires leaving the front of the post and one for the back. Each
 * connection names the peer post (or nothing, for a slot reserved by the
 * editor before a peer is picked) and which side of the peer it reaches.
 */
module ElectricPost {
  import opened Wrappers

  /** Posts are identified by number; `None` plays the role of a null post. */
  type PostId = nat

  datatype Connection = Connection(target: Option<PostId>, isFront: bool)

  /** The entry a freshly added, not yet wired slot holds. */
  const Placeholder: Connection := Connection(None, false)

  /** Whether some entry of the list reaches the given target. */
  function HasTarget(list: seq<Connection>, target: Option<PostId>): (found: bool)
    ensures found <==> exists k :: 0 <= k < |list| && list[k].target == target
  {
    if |list| == 0 then false
    else list[0].target == target || HasTarget(list[1..], target)
  }

  /** No real post is reached twice from the same list (placeholders may repeat). */
  predicate UniquePosts(list: seq<Connection>)
  {
    forall i, j :: 0 <= i < j < |list| && list[i].target.Some? ==> list[i].target != list[j].target
  }

  /** The list after wiring `other`: unchanged if it is already reached, else
      one more entry at the end. */
  function Connect(list: seq<Connection>, other: Option<PostId>, isOtherFront: bool): (result: seq<Connection>)
    ensures HasTarget(result, other)
    ensures HasTarget(list, other) ==> result == list
    ensures !HasTarget(list, other) ==> result == list + [Connection(other, isOtherFront)]
  {
    if HasTarget(list, other) then list
    else
      var extended := list + [Connection(other, isOtherFront)];
      assert extended[|list|].target == other;
      extended
  }

  /** Wiring the same target twice is the same as wiring it once, whatever side
      the second request names. */
  lemma ConnectIdempotent(list: seq<Connection>, other: Option<PostId>, isOtherFront: bool, again: bool)
    ensures Connect(Connect(list, other, isOtherFront), other, again) == Connect(list, other, isOtherFront)
  {
  }

  /** Wiring keeps every real post reached at most once. */
  lemma ConnectKeepsUnique(list: seq<Connection>, other: Option<PostId>, isOtherFront: bool)
    requires UniquePosts(list)
    ensures UniquePosts(Connect(list, other, isOtherFront))
  {
  }

  /** Appending a placeholder keeps every real post reached at most once. */
  lemma PlaceholderKeepsUnique(list: seq<Connection>)
    requires UniquePosts(list)
    ensures UniquePosts(list + [Placeholder])
  {
  }

  /** Removing an entry keeps every real post reached at most once. */
  lemma RemoveKeepsUnique(list: seq<Connection>, index: int)
    requires UniquePosts(list) && 0 <= index < |list|
    ensures UniquePosts(list[..index] + list[index + 1..])
  {
    var rest := list[..index] + list[index + 1..];
    forall i, j | 0 <= i < j < |rest| && rest[i].target.Some?
      ensures rest[i].target != rest[j].target
    {
      var i' := if i < index then i else i + 1;
      var j' := if j < index then j else j + 1;
      assert rest[i] == list[i'] && rest[j] == list[j'] && i' < j';
    }
  }

  /**
   * Verdict of the wire-showing query over one list, entry by entry: the
   * first entry whose peer side is not showing its wire answers true; a
   * placeholder reached before that dereferences a null post; an exhausted
   * (or empty) list answers false. `isShowing(p, f)` is whether post p
   * currently shows its front (f) or back (!f) wire.
   */
  function WireVerdict(list: seq<Connection>, isShowing: (PostId, bool) -> bool): Result<bool>
  {
    if |list| == 0 then Success(false)
    else if list[0].target.None? then Failure(NullReference)
    else if !isShowing(list[0].target.value, list[0].isFront) then Success(true)
    else WireVerdict(list[1..], isShowing)
  }

  /** Every entry is a real post whose wire on the reached side is showing. */
  predicate AllPeersShowing(list: seq<Connection>, isShowing: (PostId, bool) -> bool)
  {
    forall k :: 0 <= k < |list| ==> list[k].target.Some? && isShowing(list[k].target.value, list[k].isFront)
  }

  /**
   * The verdict in closed form: false exactly when every peer shows its
   * wire (in particular on an empty list); otherwise the first entry that is
   * a placeholder or a non-showing peer decides, true for a peer and a null
   * dereference for a placeholder.
   */
  lemma {:induction false} WireVerdictCases(list: seq<Connection>, isShowing: (PostId, bool) -> bool)
    ensures WireVerdict(list, isShowing) == Success(false) <==> AllPeersShowing(list, isShowing)
    ensures WireVerdict(list, isShowing) == Success(true) <==>
      exists k :: 0 <= k < |list| && list[k].target.Some? && !isShowing(list[k].target.value, list[k].isFront)
                  && AllPeersShowing(list[..k], isShowing)
    ensures WireVerdict(list, isShowing).Failure? <==>
      exists k :: 0 <= k < |list| && list[k].target.None? && AllPeersShowing(list[..k], isShowing)
    ensures WireVerdict(list, isShowing).Failure? ==> WireVerdict(list, isShowing).error == NullReference
  {
    if |list| > 0 {
      WireVerdictCases(list[1..], isShowing);
      var tail := list[1..];
      forall k | 1 <= k <= |list|
        ensures AllPeersShowing(list[..k], isShowing) <==>
          AllPeersShowing(list[..1], isShowing) && AllPeersShowing(tail[..k - 1], isShowing)
      {
        AllPeersShowingSplit(list, k, isShowing);
      }
      assert AllPeersShowing(list[..0], isShowing);
    }
  }

  /** A prefix of a list shows all its peers exactly when its first entry
      does and the rest of the prefix does. */
  lemma AllPeersShowingSplit(list: seq<Connection>, k: int, isShowing: (PostId, bool) -> bool)
    requires 1 <= k <= |list|
    ensures AllPeersShowing(list[..k], isShowing) <==>
      AllPeersShowing(list[..1], isShowing) && AllPeersShowing(list[1..][..k - 1], isShowing)
  {
    var prefix, rest := list[..k], list[1..][..k - 1];
    assert prefix == list[..1] + rest;
    assert forall m :: 1 <= m < k ==> prefix[m] == rest[m - 1];
    assert prefix[0] == list[..1][0];
  }

  class ElectricPostInfo {
    /** Connections leaving the front of the post. */
    var front: seq<Connection>
    /** Connections leaving the back of the post. */
    var back: seq<Connection>

    /** The class invariant: no real post is wired twice from the same side. */
    predicate Valid()
      reads this
    {
      UniquePosts(front) && UniquePosts(back)
    }

    constructor()
      ensures front == [] && back == []
      ensures Valid()
    {
      front := [];
      back := [];
    }

    /** The list of the chosen side. */
    function Connections(isFront: bool): seq<Connection>
      reads this
    {
      if isFront then front else back
    }

    /** A target can be wired from a side exactly when no entry of that side
        already reaches it. */
    function CanConnect(isFront: bool, target: Option<PostId>): (can: bool)
      reads this
      ensures can <==> forall k :: 0 <= k < |Connections(isFront)| ==> Connections(isFront)[k].target != target
    {
      !HasTarget(Connections(isFront), target)
    }

    /** Reserves a slot on one side: one placeholder at the end of that list. */
    method AddConnection(isFront: bool)
      requires Valid()
      modifies this
      ensures Valid()
      ensures Connections(isFront) == old(Connections(isFront)) + [Placeholder]
      ensures Connections(!isFront) == old(Connections(!isFront))
    {
      PlaceholderKeepsUnique(Connections(isFront));
      if isFront {
        front := front + [Placeholder];
      } else {
        back := back + [Placeholder];
      }
    }

    /** Drops one entry of one side; an index outside the list does nothing. */
    method RemoveConnection(isFront: bool, index: int)
      requires Valid()
      modifies this
      ensures Valid()
      ensures 0 <= index < |old(Connections(isFront))| ==>
        Connections(isFront) == old(Connections(isFront))[..index] + old(Connections(isFront))[index + 1..]
      ensures !(0 <= index < |old(Connections(isFront))|) ==> Connections(isFront) == old(Connections(isFront))
      ensures Connections(!isFront) == old(Connections(!isFront))
    {
      if isFront {
        if index >= 0 && index < |front| {
          RemoveKeepsUnique(front, index);
          front := front[..index] + front[index + 1..];
        }
      } else {
        if index >= 0 && index < |back| {
          RemoveKeepsUnique(back, index);
          back := back[..index] + back[index + 1..];
        }
      }
    }

    /** Wires `other` to the front, unless the front already reaches it. */
    method SetFrontConnect(other: Option<PostId>, isOtherFront: bool)
      requires Valid()
      modifies this
      ensures Valid()
      ensures front == Connect(old(front), other, isOtherFront)
      ensures back == old(back)
    {
      ConnectKeepsUnique(front, other, isOtherFront);
      if HasTarget(front, other) {
        return;
      }
      front := front + [Connection(other, isOtherFront)];
    }

    /** Wires `other` to the back, unless the back already reaches it. */
    method SetBackConnect(other: Option<PostId>, isOtherFront: bool)
      requires Valid()
      modifies this
      ensures Valid()
      ensures back == Connect(old(back), other, isOtherFront)
      ensures front == old(front)
    {
      ConnectKeepsUnique(back, other, isOtherFront);
      if HasTarget(back, other) {
        return;
      }
      back := back + [Connection(other, isOtherFront)];
    }

    /** Whether the front wire should be shown: some front peer is not showing
        the wire on its side. */
    method CanShowFrontWire(isShowing: (PostId, bool) -> bool) returns (r: Result<bool>)
      ensures r == WireVerdict(front, isShowing)
    {
      r := ScanWires(front, isShowing);
    }

    /** Whether the back wire should be shown: some back peer is not showing
        the wire on its side. */
    method CanShowBackWire(isShowing: (PostId, bool) -> bool) returns (r: Result<bool>)
      ensures r == WireVerdict(back, isShowing)
    {
      r := ScanWires(back, isShowing);
    }
  }

  /** The scan both wire queries run over their list. */
  method ScanWires(list: seq<Connection>, isShowing: (PostId, bool) -> bool) returns (r: Result<bool>)
    ensures r == WireVerdict(list, isShowing)
  {
    if |list| == 0 {
      return Success(false);
    }
    var i := 0;
    while i < |list|
      invariant 0 <= i <= |list|
      invariant WireVerdict(list, isShowing) == WireVerdict(list[i..], isShowing)
    {
      var c := list[i];
      if c.target.None? {
        return Failure(NullReference);
      }
      if !isShowing(c.target.value, c.isFront) {
        return Success(true);
      }
      assert list[i..][1..] == list[i + 1..];
      i := i + 1;
    }
    return Success(false);
  }
}

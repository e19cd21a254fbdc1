/** The `Peer` record of the library: an identity (id and display name)
    with a mutable session state. Identity comparison looks at the id only. */
module Peers {

  /** A UUID is a 128-bit value. */
  newtype Uuid = x: int | 0 <= x < 0x1_0000_0000_0000_0000_0000_0000_0000_0000

  /** Where a peer stands with respect to the local session. */
  datatype State = Discovered | InSession | Undiscovered

  /** `id` and `displayName` are fixed; `state` is the only field the
      library ever changes, always through `WithState`. */
  datatype Peer = Peer(id: Uuid, displayName: string, state: State)

  /** The library's `==` on peers: equal ids, whatever names and states. */
  predicate Equals(a: Peer, b: Peer) {
    a.id == b.id
  }

  /** The peer after `peer.state = s`. */
  function WithState(p: Peer, s: State): (q: Peer)
    ensures q.state == s
    ensures q.id == p.id && q.displayName == p.displayName
    ensures Equals(q, p)
  {
    p.(state := s)
  }

  /** The initializer stores exactly what it is given. */
  lemma InitStoresArguments(id: Uuid, name: string, s: State)
    ensures Peer(id, name, s).id == id
    ensures Peer(id, name, s).displayName == name
    ensures Peer(id, name, s).state == s
  {
  }

  /** `State` has exactly three cases. */
  lemma StateCases(s: State)
    ensures s == Discovered || s == InSession || s == Undiscovered
  {
  }

  /** Equality ignores the display name and the state: renaming or
      re-stating either side never changes the verdict, and two peers are
      equal exactly when they agree once name and state are blanked out. */
  lemma EqualsIffSameId(a: Peer, b: Peer, n: string, n': string, s: State, s': State)
    ensures Equals(a, b) <==> Equals(a.(displayName := n, state := s), b.(displayName := n', state := s'))
    ensures Equals(a, b) <==>
      a.(displayName := "", state := Undiscovered) == b.(displayName := "", state := Undiscovered)
  {
  }

  /** Peer equality is an equivalence relation. */
  lemma EqualsIsEquivalence()
    ensures forall a: Peer :: Equals(a, a)
    ensures forall a: Peer, b: Peer :: Equals(a, b) ==> Equals(b, a)
    ensures forall a: Peer, b: Peer, c: Peer :: Equals(a, b) && Equals(b, c) ==> Equals(a, c)
  {
  }

  /** Changing a peer's state never changes which peers it equals. */
  lemma StateChangeKeepsEquality(p: Peer, q: Peer, s: State)
    ensures Equals(WithState(p, s), q) <==> Equals(p, q)
    ensures Equals(q, WithState(p, s)) <==> Equals(q, p)
  {
  }
}

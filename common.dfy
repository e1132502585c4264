/** Values shared by the client's game slice, the lobby store and the screens. */
module Common {

  /** A value that may be absent (JavaScript `null` / `undefined`). */
  datatype Option<+T> = None | Some(value: T) {

    /** `x || d` for a value that is never falsy when present. */
    function GetOr(default: T): T {
      match this
      case Some(v) => v
      case None => default
    }
  }

  /** Player ids are the uuid strings each client generates for itself. */
  type PlayerId = string

  /** A player record: the object a client writes for itself when it enters a
      lobby (`id`, `name`, `isHost`, `joinedAt`); the host adds `score` after
      the first round. */
  datatype Player = Player(id: PlayerId, name: string, isHost: bool, joinedAt: string, score: Option<int>)

  /** A submitted story and the round it was written in. */
  datatype Story = Story(text: string, owner: PlayerId, round: int)

  /** `order` visits every key of `keys` exactly once: the order in which
      `Object.keys`, `Object.values` and `Object.entries` walk an object. */
  ghost predicate Enumerates<K>(order: seq<K>, keys: set<K>) {
    && (forall i, j :: 0 <= i < j < |order| ==> order[i] != order[j])
    && (forall i :: 0 <= i < |order| ==> order[i] in keys)
    && (forall k :: k in keys ==> k in order)
  }

  /** An enumeration of a key set is exactly as long as the set is large. */
  lemma {:induction false} EnumerationSize<K>(order: seq<K>, keys: set<K>)
    requires Enumerates(order, keys)
    ensures |order| == |keys|
  {
    if |order| > 0 {
      var last := order[|order| - 1];
      var init := order[..|order| - 1];
      assert forall k :: k in keys - {last} ==> k in init by {
        forall k | k in keys - {last} ensures k in init {
          var i :| 0 <= i < |order| && order[i] == k;
          assert i < |order| - 1;
          assert init[i] == k;
        }
      }
      assert Enumerates(init, keys - {last});
      EnumerationSize(init, keys - {last});
    }
  }
}

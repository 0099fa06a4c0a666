/** Identifiers and small wrappers shared by the server and client models. */
module Types {

  /** A socket.io connection id (`socket.id`). */
  type SocketId = string

  /** Opaque id of a media-engine object: a transport, a producer or a consumer. */
  type ObjId = nat

  /** Id of a media track: a locally captured track or a consumer's remote track. */
  type TrackId = nat

  datatype Option<+T> = None | Some(value: T)

  /** The media kind of a track, producer or consumer. */
  datatype Kind = Audio | Video

  /** The `{ producerId, kind }` pair the server sends in `new-producer` and
      in each entry of `producers`. */
  datatype ProducerInfo = ProducerInfo(producerId: ObjId, kind: Kind)

  /** No element occurs twice. */
  predicate NoDup<T(==)>(s: seq<T>) {
    forall i, j :: 0 <= i < j < |s| ==> s[i] != s[j]
  }

  /** Inserting an element that is not yet present keeps a sequence duplicate-free. */
  lemma NoDupInsert<T>(a: seq<T>, x: T, b: seq<T>)
    requires NoDup(a + b)
    requires x !in a && x !in b
    ensures NoDup(a + [x] + b)
  {
    var s := a + [x] + b;
    var ab := a + b;
    forall i, j | 0 <= i < j < |s|
      ensures s[i] != s[j]
    {
      var i' := if i < |a| then i else i - 1;
      var j' := if j < |a| then j else j - 1;
      if i == |a| {
        assert s[i] == x;
        assert s[j] == b[j - |a| - 1];
      } else if j == |a| {
        assert s[j] == x;
        assert s[i] == a[i];
      } else {
        assert s[i] == ab[i'];
        assert s[j] == ab[j'];
      }
    }
  }
}

/**
 * The address a room page opens: the conflict endpoint, the room id, the user id and the
 * encoded user name, joined by '/'; and how those parts are read back out of it.
 */
module RoomAddress {
  import opened Options
  import Text
  import Needs

  /**
   * The socket address `${base}${roomId}/${userId}/${encodedName}`, where the page passes
   * `getData("else")` as `base`: the room id goes in as typed, only the name is encoded.
   */
  function RoomUrl(base: string, roomId: string, userId: string, encodedName: string): (url: string)
    ensures Text.StartsWith(url, base)
    ensures |url| == |base| + |roomId| + |userId| + |encodedName| + 2
  {
    base + roomId + "/" + userId + "/" + encodedName
  }

  /** Splits `s` at the first `sep`: the part before it and the part after it. */
  function SplitFirst(s: string, sep: char): (r: Option<(string, string)>)
    ensures r.None? <==> sep !in s
    ensures r.Some? ==> s == r.value.0 + [sep] + r.value.1 && sep !in r.value.0
  {
    if s == [] then None
    else if s[0] == sep then Some(([], s[1..]))
    else match SplitFirst(s[1..], sep)
      case None => None
      case Some(p) => Some(([s[0]] + p.0, p.1))
  }

  /** Splitting at the first separator finds the first separator. */
  lemma {:induction false} SplitFirstOfJoin(a: string, sep: char, b: string)
    requires sep !in a
    ensures SplitFirst(a + [sep] + b, sep) == Some((a, b))
  {
    if a != [] {
      assert (a + [sep] + b)[1..] == a[1..] + [sep] + b;
      SplitFirstOfJoin(a[1..], sep, b);
      assert [a[0]] + a[1..] == a;
    }
  }

  /** Reads room id, user id and encoded name back out of an address under `base`, as the server would. */
  function ParseRoomUrl(base: string, url: string): Option<(string, string, string)> {
    if !Text.StartsWith(url, base) then None
    else match SplitFirst(url[|base|..], '/')
      case None => None
      case Some(first) => match SplitFirst(first.1, '/')
        case None => None
        case Some(second) => Some((first.0, second.0, second.1))
  }

  /**
   * The address loses nothing when neither the room id nor the user id contains '/':
   * parsing it gives back all three parts. The room id is not encoded, so a room id with
   * a '/' in it breaks this, as `SlashInRoomIdIsAmbiguous` shows.
   */
  lemma RoomUrlRoundTrip(base: string, roomId: string, userId: string, encodedName: string)
    requires '/' !in roomId && '/' !in userId
    ensures ParseRoomUrl(base, RoomUrl(base, roomId, userId, encodedName)) == Some((roomId, userId, encodedName))
  {
    var rest := userId + ['/'] + encodedName;
    var url := RoomUrl(base, roomId, userId, encodedName);
    assert url == base + (roomId + ['/'] + rest);
    assert url[|base|..] == roomId + ['/'] + rest;
    SplitFirstOfJoin(roomId, '/', rest);
    SplitFirstOfJoin(userId, '/', encodedName);
  }

  /** Two different joins give the same address when the room id holds a '/'. */
  lemma SlashInRoomIdIsAmbiguous(base: string)
    ensures RoomUrl(base, "a/b", "u", "n") == RoomUrl(base, "a", "b", "u/n")
  {
  }

  /** The page's addresses lie under the conflict endpoint's `/ws/conflict/` path. */
  lemma RoomUrlUnderConflictPath(roomId: string, userId: string, encodedName: string)
    ensures Text.StartsWith(RoomUrl(Needs.GetData("else"), roomId, userId, encodedName), Needs.ConflictWsUrl)
  {
  }
}

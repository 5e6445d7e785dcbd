/** The recommendation records shared by the recommendation stub and the favorites store. */
module MediaItems {

  /** The `type: 'movie' | 'music'` discriminant. */
  datatype Kind = Movie | Music

  /** A movie or music record as the mock pools spell them out (every field a string except a movie's year). */
  datatype Item =
    | MovieItem(id: string, title: string, director: string, year: int, duration: string,
                genre: string, rating: string, description: string, imageUrl: string)
    | SongItem(id: string, title: string, artist: string, duration: string,
               genre: string, album: string, rating: string, description: string, imageUrl: string)

  /** `{ ...item, type }`: the record with a `type` field added (or overwritten); no other field changes. */
  datatype Tagged = Tagged(item: Item, kind: Kind)

  /** `items.map(item => ({ ...item, type: kind }))`. */
  function TagAll(items: seq<Item>, kind: Kind): (r: seq<Tagged>)
    ensures |r| == |items|
    ensures forall i :: 0 <= i < |r| ==> r[i].item == items[i] && r[i].kind == kind
  {
    seq(|items|, i requires 0 <= i < |items| => Tagged(items[i], kind))
  }

  /** The ids of a list of items, in order. */
  function Ids(items: seq<Item>): (r: seq<string>)
    ensures |r| == |items|
    ensures forall i :: 0 <= i < |r| ==> r[i] == items[i].id
  {
    seq(|items|, i requires 0 <= i < |items| => items[i].id)
  }
}

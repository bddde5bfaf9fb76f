/** The records of the drive's JSON store (`db.folders`, `db.files`) and the
    small operations every server variant shares: id lookup, id allocation,
    ASCII lowercasing, substring search and upload filename normalisation. */
module Drive {

  datatype Option<T> = None | Some(value: T) {
    function GetOr(default: T): T {
      match this
      case Some(v) => v
      case None => default
    }
  }

  /** The fields only a file record has: the multer mime type, the name the
      blob was stored under in the uploads directory, and `Date.now()`. */
  datatype Blob = Blob(mimeType: string, storedName: string, createdAt: int)

  /** A folder or file record. `folderId` is the parent link (0 = root) and
      is absent on uploads of the single-list server; `starred` is absent
      until a star, unstar or update sets it; folders have no blob. */
  datatype Item = Item(id: int, name: string, folderId: Option<int>, starred: Option<bool>, blob: Option<Blob>)

  /** The HTTP outcome of a handler: 200, 201, 400, 404 or 500. */
  datatype Reply<T> = Ok(value: T) | Created(value: T) | BadRequest | NotFound | ServerError

  // ---------------------------------------------------------------------
  // Lookup by id (`find` / `findIndex` with `f.id === id`)

  /** Index of the first record with the given id, or -1. */
  function IndexOf(s: seq<Item>, id: int): (r: int)
    ensures -1 <= r < |s|
    ensures r >= 0 ==> s[r].id == id && forall j :: 0 <= j < r ==> s[j].id != id
    ensures r == -1 <==> forall j :: 0 <= j < |s| ==> s[j].id != id
  {
    if s == [] then -1
    else if s[0].id == id then 0
    else
      var k := IndexOf(s[1..], id);
      if k == -1 then -1 else k + 1
  }

  /** The first record with the given id, if any. */
  function FindById(s: seq<Item>, id: int): (r: Option<Item>)
    ensures r.Some? ==> r.value in s && r.value.id == id
    ensures r.Some? ==> exists i :: 0 <= i < |s| && s[i] == r.value && forall j :: 0 <= j < i ==> s[j].id != id
    ensures r.None? <==> forall x :: x in s ==> x.id != id
  {
    var i := IndexOf(s, id);
    if i == -1 then None else Some(s[i])
  }

  /** A get-by-id handler: 200 with the first record carrying the id, or
      404 exactly when no record does. */
  function Lookup(s: seq<Item>, id: int): (r: Reply<Item>)
    ensures r.Ok? || r.NotFound?
    ensures r.Ok? ==> r.value in s && r.value.id == id
    ensures r.Ok? ==> exists i :: 0 <= i < |s| && s[i] == r.value && forall j :: 0 <= j < i ==> s[j].id != id
    ensures r.NotFound? <==> forall x :: x in s ==> x.id != id
  {
    match FindById(s, id)
    case Some(x) => Ok(x)
    case None => NotFound
  }

  /** `splice(i, 1)`. */
  function RemoveAt(s: seq<Item>, i: nat): (r: seq<Item>)
    requires i < |s|
    ensures |r| == |s| - 1
    ensures forall j :: 0 <= j < i ==> r[j] == s[j]
    ensures forall j :: i <= j < |r| ==> r[j] == s[j + 1]
  {
    s[..i] + s[i + 1..]
  }

  // ---------------------------------------------------------------------
  // Id allocation: `s.length ? s[s.length - 1].id + 1 : 1`

  function NextId(s: seq<Item>): int {
    if |s| > 0 then s[|s| - 1].id + 1 else 1
  }

  /** Ids strictly increase along the store; true of any store built only
      by the appending handlers. */
  ghost predicate IdsIncreasing(s: seq<Item>) {
    forall i, j :: 0 <= i < j < |s| ==> s[i].id < s[j].id
  }

  /** While ids are strictly increasing, "last id + 1" exceeds every id. */
  lemma NextIdFresh(s: seq<Item>)
    requires IdsIncreasing(s)
    ensures forall x :: x in s ==> x.id < NextId(s)
  {
  }

  /** Appending a record with id `NextId(s)` keeps ids strictly increasing. */
  lemma AppendNextIdIncreasing(s: seq<Item>, x: Item)
    requires IdsIncreasing(s) && x.id == NextId(s)
    ensures IdsIncreasing(s + [x])
    ensures forall y :: y in s ==> y.id < x.id
  {
  }

  // ---------------------------------------------------------------------
  // Strings (ASCII only: `toLowerCase` on other characters is not modelled)

  function LowerChar(c: char): char {
    if 'A' <= c <= 'Z' then (c as int + 32) as char else c
  }

  /** `toLowerCase()` on ASCII text. */
  function Lower(s: string): (r: string)
    ensures |r| == |s|
    ensures forall i :: 0 <= i < |s| ==> r[i] == LowerChar(s[i])
  {
    seq(|s|, i requires 0 <= i < |s| => LowerChar(s[i]))
  }

  /** `s.includes(t)`: t occurs in s at some offset (the empty string always does). */
  predicate Includes(s: string, t: string) {
    exists i :: 0 <= i <= |s| - |t| && OccursAt(s, t, i)
  }

  predicate OccursAt(s: string, t: string, i: int) {
    0 <= i <= |s| - |t| && s[i..i + |t|] == t
  }

  /** The multer storage name: `originalname.toLowerCase().split(' ').join('-')`. */
  function NormaliseFilename(s: string): (r: string)
    ensures |r| == |s|
    ensures forall i :: 0 <= i < |r| ==> r[i] != ' ' && !('A' <= r[i] <= 'Z')
    ensures forall i :: 0 <= i < |s| && s[i] != ' ' ==> r[i] == LowerChar(s[i])
    ensures forall i :: 0 <= i < |s| && s[i] == ' ' ==> r[i] == '-'
  {
    if s == [] then []
    else [if s[0] == ' ' then '-' else LowerChar(s[0])] + NormaliseFilename(s[1..])
  }

  /** Normalising a stored name again changes nothing. */
  lemma NormaliseIdempotent(s: string)
    ensures NormaliseFilename(NormaliseFilename(s)) == NormaliseFilename(s)
  {
  }
}

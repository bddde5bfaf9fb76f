/** The Express server of backup/server_code_before_persisting.js: the
    handlers over the shared `db` object, whose `folders`, `files` and
    `users` arrays they change in place. */
module PersistingServer {
  import opened Drive
  import opened Query
  import opened Sequences

  /** A registered user; `password` holds the bcrypt hash. */
  datatype User = User(id: int, name: string, email: string, password: string)

  // ---------------------------------------------------------------------
  // Registration checks

  /** JavaScript's `\s`: the ASCII blanks, no-break space, the Unicode
      space separators, the line and paragraph separators and the BOM. */
  predicate IsSpace(c: char) {
    var n := c as int;
    n == 9 || n == 10 || n == 11 || n == 12 || n == 13 || n == 32 || n == 0xA0 ||
    n == 0x1680 || (0x2000 <= n <= 0x200A) || n == 0x2028 || n == 0x2029 ||
    n == 0x202F || n == 0x205F || n == 0x3000 || n == 0xFEFF
  }

  /** One character of the class `[^\s@]`. */
  predicate Plain(c: char) {
    c != '@' && !IsSpace(c)
  }

  predicate AllPlain(s: string) {
    forall i :: 0 <= i < |s| ==> Plain(s[i])
  }

  /** `/^[^\s@]+@[^\s@]+\.[^\s@]+$/.test(e)`: the `@` at `at` and the `.`
      at `dot` split e into three non-empty runs of `[^\s@]`. */
  predicate EmailSplit(e: string, at: int, dot: int) {
    0 < at && at + 1 < dot && dot + 1 < |e| && e[at] == '@' && e[dot] == '.' &&
    AllPlain(e[..at]) && AllPlain(e[at + 1..dot]) && AllPlain(e[dot + 1..])
  }

  predicate EmailPattern(e: string) {
    exists at, dot | 0 <= at < |e| && 0 <= dot < |e| :: EmailSplit(e, at, dot)
  }

  /** The email pattern in other words: no whitespace, exactly one `@`,
      not first, and a `.` after the `@` with at least one character on
      either side of it. */
  predicate EmailShape(e: string, at: int) {
    0 < at < |e| && e[at] == '@' &&
    (forall i :: 0 <= i < |e| ==> !IsSpace(e[i]) && (e[i] == '@' <==> i == at)) &&
    exists dot :: at + 1 < dot < |e| - 1 && e[dot] == '.'
  }

  lemma EmailPatternIff(e: string)
    ensures EmailPattern(e) <==> exists at :: EmailShape(e, at)
  {
    if EmailPattern(e) {
      var at, dot :| 0 <= at < |e| && 0 <= dot < |e| && EmailSplit(e, at, dot);
      assert 0 < at && at + 1 < dot && dot + 1 < |e|;
      var local, domain, top := e[..at], e[at + 1..dot], e[dot + 1..];
      forall i | 0 <= i < |e| ensures !IsSpace(e[i]) && (e[i] == '@' <==> i == at) {
        if i < at {
          assert local[i] == e[i];
        } else if at < i < dot {
          assert domain[i - at - 1] == e[i];
        } else if dot < i {
          assert top[i - dot - 1] == e[i];
        }
      }
      assert EmailShape(e, at);
    }
    if at :| EmailShape(e, at) {
      var dot :| at + 1 < dot < |e| - 1 && e[dot] == '.';
      assert EmailSplit(e, at, dot);
    }
  }

  /** Registration rejects what the source rejects, with 400. */
  lemma RejectedEmails()
    ensures EmailPattern("a@b.c")
    ensures !EmailPattern("a@b")
    ensures !EmailPattern("a b@c.d")
    ensures !EmailPattern("@b.c")
  {
    assert EmailSplit("a@b.c", 1, 3);
    EmailPatternIff("a@b");
    EmailPatternIff("a b@c.d");
    EmailPatternIff("@b.c");
    var e := "a b@c.d";
    assert IsSpace(e[1]);
  }

  /** `Math.max(...users.map(user => user.id))`. */
  function MaxId(users: seq<User>): (m: int)
    requires |users| > 0
    ensures forall u :: u in users ==> u.id <= m
    ensures exists u :: u in users && u.id == m
  {
    if |users| == 1 then users[0].id
    else
      var rest := MaxId(users[1..]);
      if users[0].id >= rest then users[0].id else rest
  }

  /** `users.length > 0 ? Math.max(...ids) + 1 : 1`. */
  function NewUserId(users: seq<User>): (id: int)
    ensures forall u :: u in users ==> u.id < id
    ensures |users| == 0 ==> id == 1
    ensures |users| > 0 ==> exists u :: u in users && id == u.id + 1
  {
    if |users| > 0 then MaxId(users) + 1 else 1
  }

  predicate EmailTaken(users: seq<User>, email: string) {
    exists u :: u in users && u.email == email
  }

  // ---------------------------------------------------------------------
  // Partial updates

  /** `PUT /files/:id` body: only the supplied fields are written;
      `folderId` arrives already parsed. */
  function Patch(x: Item, name: Option<string>, folderId: Option<int>, starred: Option<bool>): Item {
    x.(name := name.GetOr(x.name),
       folderId := if folderId.Some? then Some(folderId.value) else x.folderId,
       starred := if starred.Some? then Some(starred.value) else x.starred)
  }

  /** A patch touches only the supplied fields: id, blob and every field
      left out of the body keep their values. */
  lemma PatchOnlySupplied(x: Item, name: Option<string>, folderId: Option<int>, starred: Option<bool>)
    ensures Patch(x, name, folderId, starred).id == x.id
    ensures Patch(x, name, folderId, starred).blob == x.blob
    ensures name.None? ==> Patch(x, name, folderId, starred).name == x.name
    ensures folderId.None? ==> Patch(x, name, folderId, starred).folderId == x.folderId
    ensures starred.None? ==> Patch(x, name, folderId, starred).starred == x.starred
    ensures name.Some? ==> Patch(x, name, folderId, starred).name == name.value
    ensures folderId.Some? ==> Patch(x, name, folderId, starred).folderId == folderId
    ensures starred.Some? ==> Patch(x, name, folderId, starred).starred == starred
    ensures Patch(x, None, None, None) == x
  {
  }

  /** The store after `record.starred = value` on the first record with
      the id; unchanged when there is none. */
  function SetStarred(s: seq<Item>, id: int, value: bool): (r: seq<Item>)
    ensures |r| == |s|
    ensures forall j :: 0 <= j < |s| ==> r[j].id == s[j].id
    ensures IndexOf(s, id) >= 0 ==> r[IndexOf(s, id)] == s[IndexOf(s, id)].(starred := Some(value))
    ensures IndexOf(s, id) == -1 ==> r == s
  {
    var i := IndexOf(s, id);
    if i == -1 then s else s[i := s[i].(starred := Some(value))]
  }

  /** Starring (or unstarring) twice is the same as doing it once, and only
      the addressed record changes. */
  lemma SetStarredIdempotent(s: seq<Item>, id: int, value: bool)
    ensures SetStarred(SetStarred(s, id, value), id, value) == SetStarred(s, id, value)
    ensures forall j :: 0 <= j < |s| && j != IndexOf(s, id) ==> SetStarred(s, id, value)[j] == s[j]
  {
  }

  /** Is some file stored directly in the folder? */
  predicate HoldsFiles(files: seq<Item>, folderId: int) {
    exists x :: x in files && x.folderId == Some(folderId)
  }

  class Store {
    var folders: seq<Item>
    var files: seq<Item>
    var users: seq<User>

    /** The store as read from db.json at start-up. */
    constructor (folders: seq<Item>, files: seq<Item>, users: seq<User>)
      ensures this.folders == folders && this.files == files && this.users == users
    {
      this.folders := folders;
      this.files := files;
      this.users := users;
    }

    /** `POST /register`. `hashed` is the bcrypt hash of `password`. */
    method Register(name: string, email: string, password: string, hashed: string) returns (r: Reply<User>)
      modifies this
      ensures r.BadRequest? <==>
        name == "" || email == "" || password == "" || !EmailPattern(email) || EmailTaken(old(users), email)
      ensures r.BadRequest? ==> users == old(users)
      ensures !r.BadRequest? ==> r == Created(User(NewUserId(old(users)), name, email, hashed))
      ensures !r.BadRequest? ==> users == old(users) + [r.value]
      ensures r.Created? ==> forall u :: u in old(users) ==> u.id < r.value.id && u.email != email
      ensures folders == old(folders) && files == old(files)
    {
      if name == "" || email == "" || password == "" {
        return BadRequest;
      }
      if !EmailPattern(email) {
        return BadRequest;
      }
      if EmailTaken(users, email) {
        return BadRequest;
      }
      var user := User(NewUserId(users), name, email, hashed);
      users := users + [user];
      r := Created(user);
    }

    /** `GET /files`. When no filter ran, `sort` reorders `db.files` itself. */
    method ListFiles(q: ListQuery) returns (r: seq<Item>)
      modifies this
      ensures r == RunQuery(old(files), q)
      ensures files == if Unfiltered(q) && q.sort.Some? then SortBy(old(files), q.sort.value, q.desc) else old(files)
      ensures multiset(files) == multiset(old(files))
      ensures folders == old(folders) && users == old(users)
    {
      var list := files;
      if q.folderId.Some? {
        list := ByFolder(list, q.folderId.value);
      }
      if q.q != "" {
        list := Matching(list, q.q);
      }
      if q.starred.Some? {
        list := WithStarred(list, StarredWanted(q.starred.value));
      }
      if q.sort.Some? {
        list := SortBy(list, q.sort.value, q.desc);
        if Unfiltered(q) {
          // the list is still the store's own array, sorted in place
          files := list;
        }
      }
      if q.page.Some? && q.limit.Some? {
        list := Paginate(list, q.page.value, q.limit.value);
      }
      r := list;
    }

    /** `GET /folders`, the same pipeline over `db.folders`. */
    method ListFolders(q: ListQuery) returns (r: seq<Item>)
      modifies this
      ensures r == RunQuery(old(folders), q)
      ensures folders == if Unfiltered(q) && q.sort.Some? then SortBy(old(folders), q.sort.value, q.desc) else old(folders)
      ensures multiset(folders) == multiset(old(folders))
      ensures files == old(files) && users == old(users)
    {
      var list := folders;
      if q.folderId.Some? {
        list := ByFolder(list, q.folderId.value);
      }
      if q.q != "" {
        list := Matching(list, q.q);
      }
      if q.starred.Some? {
        list := WithStarred(list, StarredWanted(q.starred.value));
      }
      if q.sort.Some? {
        list := SortBy(list, q.sort.value, q.desc);
        if Unfiltered(q) {
          folders := list;
        }
      }
      if q.page.Some? && q.limit.Some? {
        list := Paginate(list, q.page.value, q.limit.value);
      }
      r := list;
    }

    /** `GET /files/:id`. */
    function GetFile(id: int): Reply<Item>
      reads this
    {
      Lookup(files, id)
    }

    /** `GET /folders/:id`. */
    function GetFolder(id: int): Reply<Item>
      reads this
    {
      Lookup(folders, id)
    }

    /** `GET /folders/:id/folders`: the direct sub-folders, in stored order. */
    function SubFolders(parentId: int): (r: seq<Item>)
      reads this
      ensures forall x :: x in r <==> x in folders && x.folderId == Some(parentId)
      ensures forall x :: multiset(r)[x] == if x.folderId == Some(parentId) then multiset(folders)[x] else 0
      ensures Subseq(r, folders)
    {
      ByFolder(folders, parentId)
    }

    /** `GET /folders/:id/files`: 404 for an unknown folder, else the files
      stored directly in it, sorted on a fresh array when `_sort` is given. */
    function FilesInFolder(folderId: int, sort: Option<SortField>, desc: bool): (r: Reply<seq<Item>>)
      reads this
      ensures r.Ok? || r.NotFound?
      ensures r.NotFound? <==> forall x :: x in folders ==> x.id != folderId
      ensures r.Ok? ==> forall x :: x in r.value <==> x in files && x.folderId == Some(folderId)
      ensures r.Ok? ==> forall x :: multiset(r.value)[x] == if x.folderId == Some(folderId) then multiset(files)[x] else 0
      ensures r.Ok? && sort.Some? ==> Sorted(r.value, sort.value, desc)
      ensures r.Ok? && sort.None? ==> Subseq(r.value, files)
    {
      if FindById(folders, folderId).None? then NotFound
      else
        var inFolder := ByFolder(files, folderId);
        var listed := if sort.Some? then SortBy(inFolder, sort.value, desc) else inFolder;
        SameMembers(listed, inFolder);
        Ok(listed)
    }

    /** `POST /folders`: 400 without a name; otherwise one folder appended
      with id "last id + 1" and parent `folderId || 0`. */
    method CreateFolder(name: string, folderId: Option<int>) returns (r: Reply<Item>)
      modifies this
      ensures name == "" <==> r.BadRequest?
      ensures r.BadRequest? ==> folders == old(folders)
      ensures r.Created? || r.BadRequest?
      ensures r.Created? ==> r.value == Item(NextId(old(folders)), name, Some(folderId.GetOr(0)), None, None)
      ensures r.Created? ==> folders == old(folders) + [r.value]
      ensures r.Created? && IdsIncreasing(old(folders)) ==>
        IdsIncreasing(folders) && forall x :: x in old(folders) ==> x.id < r.value.id
      ensures files == old(files) && users == old(users)
    {
      if name == "" {
        return BadRequest;
      }
      var folder := Item(NextId(folders), name, Some(folderId.GetOr(0)), None, None);
      if IdsIncreasing(folders) {
        AppendNextIdIncreasing(folders, folder);
      }
      folders := folders + [folder];
      r := Created(folder);
    }

    /** `POST /files`: `received` is false when multer reported an error.
      The record is built and sent back but never pushed onto `db.files`,
      so its id is not in the store and "last id + 1" hands it out again. */
    method UploadFile(received: bool, originalName: string, mimeType: string, folderId: Option<int>, now: int)
      returns (r: Reply<Item>)
      ensures !received <==> r.BadRequest?
      ensures r.Created? || r.BadRequest?
      ensures r.Created? ==>
        r.value == Item(NextId(files), originalName, Some(folderId.GetOr(0)), None,
                        Some(Blob(mimeType, NormaliseFilename(originalName), now)))
      ensures r.Created? && IdsIncreasing(files) ==> FindById(files, r.value.id).None?
    {
      if !received {
        return BadRequest;
      }
      var file := Item(NextId(files), originalName, Some(folderId.GetOr(0)), None,
                       Some(Blob(mimeType, NormaliseFilename(originalName), now)));
      if IdsIncreasing(files) {
        NextIdFresh(files);
      }
      r := Created(file);
    }

    /** `PUT /files/:id`: 404 and no change for an unknown id; otherwise
      the first record with the id gets the supplied fields. */
    method UpdateFile(id: int, name: Option<string>, folderId: Option<int>, starred: Option<bool>)
      returns (r: Reply<Item>)
      modifies this
      ensures r.Ok? || r.NotFound?
      ensures r.NotFound? <==> forall x :: x in old(files) ==> x.id != id
      ensures r.NotFound? ==> files == old(files)
      ensures r.Ok? ==> var i := IndexOf(old(files), id);
        r.value == Patch(old(files)[i], name, folderId, starred) && files == old(files)[i := r.value]
      ensures folders == old(folders) && users == old(users)
    {
      var i := IndexOf(files, id);
      if i == -1 {
        return NotFound;
      }
      var file := Patch(files[i], name, folderId, starred);
      files := files[i := file];
      r := Ok(file);
    }

    /** `DELETE /files/:id`: the record is spliced out before the blob is
      unlinked, so a failed unlink answers 500 with the record gone. */
    method DeleteFile(id: int, unlinked: bool) returns (r: Reply<()>)
      modifies this
      ensures r.NotFound? <==> forall x :: x in old(files) ==> x.id != id
      ensures r.NotFound? ==> files == old(files)
      ensures !r.NotFound? ==> files == RemoveAt(old(files), IndexOf(old(files), id))
      ensures !r.NotFound? ==> (r.Ok? <==> unlinked) && (r.ServerError? <==> !unlinked)
      ensures folders == old(folders) && users == old(users)
    {
      var i := IndexOf(files, id);
      if i == -1 {
        return NotFound;
      }
      files := RemoveAt(files, i);
      if !unlinked {
        return ServerError;
      }
      r := Ok(());
    }

    /** `DELETE /folders/:id`: 404 for an unknown id, 400 while any file
      is stored directly in the folder, otherwise that folder record alone
      is removed. */
    method DeleteFolder(id: int) returns (r: Reply<()>)
      modifies this
      ensures r.NotFound? <==> forall x :: x in old(folders) ==> x.id != id
      ensures r.BadRequest? <==> (exists x :: x in old(folders) && x.id == id) && HoldsFiles(old(files), id)
      ensures r.Ok? || r.NotFound? || r.BadRequest?
      ensures !r.Ok? ==> folders == old(folders)
      ensures r.Ok? ==> folders == RemoveAt(old(folders), IndexOf(old(folders), id))
      ensures files == old(files) && users == old(users)
    {
      var i := IndexOf(folders, id);
      if i == -1 {
        return NotFound;
      }
      var inFolder := ByFolder(files, id);
      if |inFolder| > 0 {
        assert inFolder[0] in inFolder;
        return BadRequest;
      }
      folders := RemoveAt(folders, i);
      r := Ok(());
    }

    /** `POST /folders/:id/star` (value true) and `DELETE /folders/:id/star`
      (value false). */
    method StarFolder(id: int, value: bool) returns (r: Reply<()>)
      modifies this
      ensures r.Ok? || r.NotFound?
      ensures r.NotFound? <==> forall x :: x in old(folders) ==> x.id != id
      ensures folders == SetStarred(old(folders), id, value)
      ensures r.NotFound? ==> folders == old(folders)
      ensures files == old(files) && users == old(users)
    {
      var i := IndexOf(folders, id);
      if i == -1 {
        return NotFound;
      }
      folders := folders[i := folders[i].(starred := Some(value))];
      r := Ok(());
    }

    /** `POST /files/:id/star` (value true) and `DELETE /files/:id/star`
      (value false). */
    method StarFile(id: int, value: bool) returns (r: Reply<()>)
      modifies this
      ensures r.Ok? || r.NotFound?
      ensures r.NotFound? <==> forall x :: x in old(files) ==> x.id != id
      ensures files == SetStarred(old(files), id, value)
      ensures r.NotFound? ==> files == old(files)
      ensures folders == old(folders) && users == old(users)
    {
      var i := IndexOf(files, id);
      if i == -1 {
        return NotFound;
      }
      files := files[i := files[i].(starred := Some(value))];
      r := Ok(());
    }
  }

  // ---------------------------------------------------------------------
  // What listing with `_sort` and no filter does to id allocation

  /** Two folders with ids 1 and 2; `GET /folders?_sort=id&_order=desc`
      stores them as [2, 1], after which `POST /folders` allocates id 2
      again. */
  lemma InPlaceSortRepeatsId()
    ensures var s := [Item(1, "a", Some(0), None, None), Item(2, "b", Some(0), None, None)];
      var q := ListQuery(None, "", None, Some(Id), true, None, None);
      var sorted := SortBy(s, Id, true);
      IdsIncreasing(s) && Unfiltered(q) && q.sort.Some? &&
      sorted == [s[1], s[0]] && NextId(sorted) == s[1].id
  {
  }

  /** The same through the handlers: on a store whose folders have ids 1
      and 2, `GET /folders?_sort=id&_order=desc` followed by `POST /folders`
      leaves two different folders carrying id 2. */
  method DuplicateIdAfterSortedListing() returns (a: Item, b: Item)
    ensures a.id == b.id == 2 && a != b
  {
    var db := new Store([Item(1, "a", Some(0), None, None), Item(2, "b", Some(0), None, None)], [], []);
    var listed := db.ListFolders(ListQuery(None, "", None, Some(Id), true, None, None));
    InPlaceSortRepeatsId();
    var created := db.CreateFolder("c", None);
    a := db.folders[0];
    b := db.folders[2];
  }

  /** A listing that runs on a copy (`RunQuery`) leaves the store as it was,
      so while ids increase "last id + 1" stays fresh across any number of
      listings followed by a create. */
  lemma ListingOnCopyKeepsNextIdFresh(s: seq<Item>, q: ListQuery, x: Item)
    requires IdsIncreasing(s) && x.id == NextId(s)
    ensures forall y :: y in RunQuery(s, q) ==> y.id < x.id
    ensures IdsIncreasing(s + [x])
  {
    RunQuerySpec(s, q);
    AppendNextIdIncreasing(s, x);
  }
}

/** The Express server of backup/initial_folder_code.js: one `/items`
    listing for a folder's sub-folders and files, uploads, folder creation,
    renames and deletes over the shared `db` object. */
module InitialServer {
  import opened Drive
  import opened Query
  import opened Sequences

  /** The `/items` query string, already parsed; `folderId` None when
      absent (the handler then uses root 0). */
  datatype ItemsQuery = ItemsQuery(
    folderId: Option<int>, q: string, sort: Option<SortField>, desc: bool,
    page: Option<Pos>, limit: Option<Pos>)

  /** The same pipeline as the other listings, on a fresh filtered array:
      parent filter with `parseInt(folderId || 0)`, no `starred` filter. */
  function AsListQuery(q: ItemsQuery): ListQuery {
    ListQuery(Some(q.folderId.GetOr(0)), q.q, None, q.sort, q.desc, q.page, q.limit)
  }

  class Store {
    var folders: seq<Item>
    var files: seq<Item>

    constructor (folders: seq<Item>, files: seq<Item>)
      ensures this.folders == folders && this.files == files
    {
      this.folders := folders;
      this.files := files;
    }

    /** `GET /items`: the folders and the files stored directly in the
      asked folder (root by default) whose names contain `q`, each list
      sorted and paginated on its own. */
    function Items(q: ItemsQuery): (r: (seq<Item>, seq<Item>))
      reads this
      ensures forall x :: x in r.0 ==> x in folders && x.folderId == Some(q.folderId.GetOr(0))
      ensures forall x :: x in r.1 ==> x in files && x.folderId == Some(q.folderId.GetOr(0))
      ensures q.q != "" ==> forall x :: x in r.0 || x in r.1 ==> Includes(Lower(x.name), Lower(q.q))
      ensures q.sort.Some? ==> Sorted(r.0, q.sort.value, q.desc) && Sorted(r.1, q.sort.value, q.desc)
      ensures q.page.Some? && q.limit.Some? ==> |r.0| <= q.limit.value && |r.1| <= q.limit.value
      ensures q.page.None? || q.limit.None? ==>
        multiset(r.0) == multiset(Filtered(folders, AsListQuery(q))) &&
        multiset(r.1) == multiset(Filtered(files, AsListQuery(q)))
      ensures q.sort.None? && (q.page.None? || q.limit.None?) ==>
        Subseq(r.0, folders) && Subseq(r.1, files)
    {
      var lq := AsListQuery(q);
      RunQuerySpec(folders, lq);
      RunQuerySpec(files, lq);
      (RunQuery(folders, lq), RunQuery(files, lq))
    }

    /** `GET /files/:id`. */
    function GetFile(id: int): Reply<Item>
      reads this
    {
      Lookup(files, id)
    }

    /** `GET /folders/:id`. */
    function GetFolder(id: int): Reply<Item>
      reads this
    {
      Lookup(folders, id)
    }

    /** `POST /files`: 400 when multer reported an error (`received`
      false), else one record appended with id "last id + 1" and parent
      `parseInt(folderId || 0)`. */
    method UploadFile(received: bool, originalName: string, mimeType: string, folderId: Option<int>, now: int)
      returns (r: Reply<Item>)
      modifies this
      ensures !received <==> r.BadRequest?
      ensures r.Created? || r.BadRequest?
      ensures r.BadRequest? ==> files == old(files)
      ensures r.Created? ==>
        r.value == Item(NextId(old(files)), originalName, Some(folderId.GetOr(0)), None,
                        Some(Blob(mimeType, NormaliseFilename(originalName), now)))
      ensures r.Created? ==> files == old(files) + [r.value]
      ensures r.Created? ==> GetFile(r.value.id).Ok?
      ensures r.Created? && IdsIncreasing(old(files)) ==>
        IdsIncreasing(files) && forall x :: x in old(files) ==> x.id < r.value.id
      ensures folders == old(folders)
    {
      if !received {
        return BadRequest;
      }
      var file := Item(NextId(files), originalName, Some(folderId.GetOr(0)), None,
                       Some(Blob(mimeType, NormaliseFilename(originalName), now)));
      if IdsIncreasing(files) {
        AppendNextIdIncreasing(files, file);
      }
      files := files + [file];
      assert file in files;
      r := Created(file);
    }

    /** `POST /folders`: 400 without a name, else one folder appended with
      id "last id + 1" and parent `parseInt(folderId || 0)`. */
    method CreateFolder(name: string, folderId: Option<int>) returns (r: Reply<Item>)
      modifies this
      ensures name == "" <==> r.BadRequest?
      ensures r.Created? || r.BadRequest?
      ensures r.BadRequest? ==> folders == old(folders)
      ensures r.Created? ==> r.value == Item(NextId(old(folders)), name, Some(folderId.GetOr(0)), None, None)
      ensures r.Created? ==> folders == old(folders) + [r.value]
      ensures r.Created? && IdsIncreasing(old(folders)) ==>
        IdsIncreasing(folders) && forall x :: x in old(folders) ==> x.id < r.value.id
      ensures files == old(files)
    {
      if name == "" {
        return BadRequest;
      }
      var folder := Item(NextId(folders), name, Some(folderId.GetOr(0)), None, None);
      if IdsIncreasing(folders) {
        AppendNextIdIncreasing(folders, folder);
      }
      folders := folders + [folder];
      r := Created(folder);
    }

    /** `PUT /files/:id`: the empty-name check comes first (400 even for an
      unknown id), then 404 for an unknown id; otherwise only the name of
      the first record with the id changes. */
    method RenameFile(id: int, name: string) returns (r: Reply<Item>)
      modifies this
      ensures r.Ok? || r.BadRequest? || r.NotFound?
      ensures r.BadRequest? <==> name == ""
      ensures r.NotFound? <==> name != "" && forall x :: x in old(files) ==> x.id != id
      ensures !r.Ok? ==> files == old(files)
      ensures r.Ok? ==> var i := IndexOf(old(files), id);
        r.value == old(files)[i].(name := name) && files == old(files)[i := r.value]
      ensures folders == old(folders)
    {
      if name == "" {
        return BadRequest;
      }
      var i := IndexOf(files, id);
      if i == -1 {
        return NotFound;
      }
      var file := files[i].(name := name);
      files := files[i := file];
      r := Ok(file);
    }

    /** `PUT /folders/:id`, the same rules over `db.folders`. */
    method RenameFolder(id: int, name: string) returns (r: Reply<Item>)
      modifies this
      ensures r.Ok? || r.BadRequest? || r.NotFound?
      ensures r.BadRequest? <==> name == ""
      ensures r.NotFound? <==> name != "" && forall x :: x in old(folders) ==> x.id != id
      ensures !r.Ok? ==> folders == old(folders)
      ensures r.Ok? ==> var i := IndexOf(old(folders), id);
        r.value == old(folders)[i].(name := name) && folders == old(folders)[i := r.value]
      ensures files == old(files)
    {
      if name == "" {
        return BadRequest;
      }
      var i := IndexOf(folders, id);
      if i == -1 {
        return NotFound;
      }
      var folder := folders[i].(name := name);
      folders := folders[i := folder];
      r := Ok(folder);
    }

    /** `DELETE /files/:id`: 404 for an unknown id, else the first record
      with the id is spliced out and the others keep their order. */
    method DeleteFile(id: int) returns (r: Reply<()>)
      modifies this
      ensures r.Ok? || r.NotFound?
      ensures r.NotFound? <==> forall x :: x in old(files) ==> x.id != id
      ensures r.NotFound? ==> files == old(files)
      ensures r.Ok? ==> files == RemoveAt(old(files), IndexOf(old(files), id))
      ensures folders == old(folders)
    {
      var i := IndexOf(files, id);
      if i == -1 {
        return NotFound;
      }
      files := RemoveAt(files, i);
      r := Ok(());
    }

    /** `DELETE /folders/:id`: 404 for an unknown id; else that folder
      record and every file whose parent link is the id go. Nothing
      recurses: sub-folders stay, their parent link now dangling. */
    method DeleteFolder(id: int) returns (r: Reply<()>)
      modifies this
      ensures r.Ok? || r.NotFound?
      ensures r.NotFound? <==> forall x :: x in old(folders) ==> x.id != id
      ensures r.NotFound? ==> folders == old(folders) && files == old(files)
      ensures r.Ok? ==> folders == RemoveAt(old(folders), IndexOf(old(folders), id))
      ensures r.Ok? ==> forall x :: x in files <==> x in old(files) && x.folderId != Some(id)
      ensures r.Ok? ==> forall x :: multiset(files)[x] == if x.folderId != Some(id) then multiset(old(files))[x] else 0
      ensures r.Ok? ==> Subseq(files, old(files))
      ensures r.Ok? ==> forall x :: x in old(folders) && x.id != id ==> x in folders
    {
      var i := IndexOf(folders, id);
      if i == -1 {
        return NotFound;
      }
      ghost var before := folders;
      folders := RemoveAt(folders, i);
      files := Filter(files, (x: Item) => x.folderId != Some(id));
      forall x | x in before && x.id != id ensures x in folders {
        var k :| 0 <= k < |before| && before[k] == x;
        assert k != i;
        if k < i { assert folders[k] == x; } else { assert folders[k - 1] == x; }
      }
      r := Ok(());
    }
  }
}

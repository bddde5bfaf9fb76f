/** The Express server of server/index.js: a single list `db.files` with
    search and pagination, uploads restricted to an extension allow-list,
    and deletes that unlink the blob before touching the list. */
module FileServer {
  import opened Drive
  import opened Query
  import opened Sequences

  // ---------------------------------------------------------------------
  // The upload filter `/\.(jpg|jpeg|png|gif|doc|docx|pdf|xls|xlsx)$/`

  const AllowedExtensions: seq<string> := ["jpg", "jpeg", "png", "gif", "doc", "docx", "pdf", "xls", "xlsx"]

  predicate EndsWith(s: string, t: string) {
    |t| <= |s| && s[|s| - |t|..] == t
  }

  /** `validateFileType`: the name ends in '.' and an allowed extension;
      the match is case-sensitive. */
  predicate ValidateFileType(name: string) {
    exists ext | ext in AllowedExtensions :: EndsWith(name, "." + ext)
  }

  /** Index of the last '.' in s, or -1. */
  function LastDot(s: string): (r: int)
    ensures -1 <= r < |s|
    ensures r >= 0 ==> s[r] == '.'
    ensures forall j :: r < j < |s| ==> s[j] != '.'
  {
    if s == [] then -1
    else if s[|s| - 1] == '.' then |s| - 1
    else LastDot(s[..|s| - 1])
  }

  /** The text after the last '.'. */
  function Extension(s: string): string
    requires LastDot(s) >= 0
  {
    s[LastDot(s) + 1..]
  }

  /** None of the allowed extensions contains a '.'. */
  lemma NoDotInExtensions()
    ensures forall ext, j :: ext in AllowedExtensions && 0 <= j < |ext| ==> ext[j] != '.'
  {
  }

  /** A name the filter accepts has the matched extension after its last '.'. */
  lemma AcceptedExtension(name: string, ext: string)
    requires ext in AllowedExtensions && EndsWith(name, "." + ext)
    ensures LastDot(name) >= 0 && Extension(name) == ext
  {
    NoDotInExtensions();
    var k := |name| - |ext| - 1;
    var tail := name[k..];
    assert tail == "." + ext;
    assert name[k] == tail[0];
    forall j | k < j < |name| ensures name[j] != '.' {
      assert name[j] == tail[j - k] == ext[j - k - 1];
    }
    assert LastDot(name) == k;
    assert name[k + 1..] == tail[1..];
  }

  /** A name whose text after the last '.' is allowed passes the filter. */
  lemma ExtensionAccepted(name: string)
    requires LastDot(name) >= 0 && Extension(name) in AllowedExtensions
    ensures ValidateFileType(name)
  {
  }

  /** The filter accepts a name exactly when it has a '.' and the text
      after its last '.' is one of the nine allowed extensions. */
  lemma ValidateFileTypeIff(name: string)
    ensures ValidateFileType(name) <==> LastDot(name) >= 0 && Extension(name) in AllowedExtensions
  {
    if ValidateFileType(name) {
      var ext :| ext in AllowedExtensions && EndsWith(name, "." + ext);
      AcceptedExtension(name, ext);
    }
    if LastDot(name) >= 0 && Extension(name) in AllowedExtensions {
      ExtensionAccepted(name);
    }
  }

  /** A name with an allowed extension passes, whatever comes before it. */
  lemma AcceptedNames()
    ensures ValidateFileType("photo.jpeg")
    ensures ValidateFileType("report.final.pdf")
  {
    assert "jpeg" in AllowedExtensions && EndsWith("photo.jpeg", "." + "jpeg");
    assert "pdf" in AllowedExtensions && EndsWith("report.final.pdf", "." + "pdf");
  }

  /** The match is case-sensitive: an upper-case extension is refused. */
  lemma UpperCaseRefused()
    ensures !ValidateFileType("A.JPG")
  {
    var a := "A.JPG";
    ValidateFileTypeIff(a);
    assert a[1] == '.' && a[2] != '.' && a[3] != '.' && a[4] != '.';
    assert LastDot(a) == 1;
    assert Extension(a) == "JPG";
  }

  /** A name without any '.' is refused, even if it spells an extension. */
  lemma BareExtensionRefused()
    ensures !ValidateFileType("jpg")
  {
  }

  class Store {
    var files: seq<Item>

    constructor (files: seq<Item>)
      ensures this.files == files
    {
      this.files := files;
    }

    /** `GET /files`: the files whose lowercased name contains the
      lowercased `name` term, in stored order, then page `page` of
      `limit` of them. */
    function ListFiles(name: string, page: Option<Pos>, limit: Option<Pos>): (r: seq<Item>)
      reads this
      ensures forall x :: x in r ==> x in files && (name != "" ==> Includes(Lower(x.name), Lower(name)))
      ensures page.None? || limit.None? ==> Subseq(r, files)
      ensures page.None? || limit.None? ==>
        forall x :: x in files && (name != "" ==> Includes(Lower(x.name), Lower(name))) ==> x in r
      ensures page.None? || limit.None? ==>
        forall x :: multiset(r)[x] == if name != "" ==> Includes(Lower(x.name), Lower(name)) then multiset(files)[x] else 0
      ensures page.Some? && limit.Some? ==>
        var matching := if name != "" then Matching(files, name) else files;
        var start := PageStart(page.value, limit.value);
        |r| == if start >= |matching| then 0 else Min(limit.value, |matching| - start)
      ensures page.Some? && limit.Some? ==>
        |r| <= limit.value &&
        var matching := if name != "" then Matching(files, name) else files;
        forall k :: 0 <= k < |r| ==>
          PageStart(page.value, limit.value) + k < |matching| &&
          r[k] == matching[PageStart(page.value, limit.value) + k]
    {
      var matching := if name != "" then Matching(files, name) else files;
      SubseqRefl(files);
      if page.Some? && limit.Some? then
        PaginateMembers(matching, page.value, limit.value);
        Paginate(matching, page.value, limit.value)
      else matching
    }

    /** `GET /files/:id`. */
    function GetFile(id: int): Reply<Item>
      reads this
    {
      Lookup(files, id)
    }

    /** `POST /files`: 400 and no change when the filter refuses the name
      or multer fails otherwise (`received` false); else one record
      appended with id "last id + 1" and no parent link. */
    method UploadFile(received: bool, originalName: string, mimeType: string, now: int) returns (r: Reply<Item>)
      modifies this
      ensures r.BadRequest? <==> !ValidateFileType(originalName) || !received
      ensures r.Created? || r.BadRequest?
      ensures r.BadRequest? ==> files == old(files)
      ensures r.Created? ==>
        r.value == Item(NextId(old(files)), originalName, None, None,
                        Some(Blob(mimeType, NormaliseFilename(originalName), now)))
      ensures r.Created? ==> files == old(files) + [r.value]
      ensures r.Created? && IdsIncreasing(old(files)) ==>
        IdsIncreasing(files) && forall x :: x in old(files) ==> x.id < r.value.id
    {
      if !ValidateFileType(originalName) || !received {
        return BadRequest;
      }
      var file := Item(NextId(files), originalName, None, None,
                       Some(Blob(mimeType, NormaliseFilename(originalName), now)));
      if IdsIncreasing(files) {
        AppendNextIdIncreasing(files, file);
      }
      files := files + [file];
      r := Created(file);
    }

    /** `DELETE /files/:id`: 404 for an unknown id; the blob is unlinked
      first, and if that throws the record stays and the answer is 500;
      otherwise exactly that record is spliced out. */
    method DeleteFile(id: int, unlinked: bool) returns (r: Reply<()>)
      modifies this
      ensures r.Ok? || r.NotFound? || r.ServerError?
      ensures r.NotFound? <==> forall x :: x in old(files) ==> x.id != id
      ensures r.ServerError? <==> !unlinked && exists x :: x in old(files) && x.id == id
      ensures !r.Ok? ==> files == old(files)
      ensures r.Ok? ==> files == RemoveAt(old(files), IndexOf(old(files), id))
    {
      var i := IndexOf(files, id);
      if i == -1 {
        return NotFound;
      }
      if !unlinked {
        return ServerError;
      }
      files := RemoveAt(files, i);
      r := Ok(());
    }
  }
}

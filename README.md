# vue-drive: the drive store and its client helpers, in Dafny

vue-drive is a small web "drive". An Express server keeps a JSON store `db`
with two arrays of records. `db.folders` holds folders and `db.files` holds
files. Every record has an `id`, a `name` and a parent link `folderId`
(0 is the root). A record may also carry `starred`. Files also carry the
uploaded blob's MIME type, its stored name and a timestamp. The server
exists in three versions, and each is modelled as its own class over the
store's arrays:

- `PersistingServer` (backup/server_code_before_persisting.js). It has
  listings of files and folders with a parent filter, a name search, a
  `starred` filter, sorting and pagination. It also has lookups by id,
  folder creation, upload, partial update, star and unstar, deletes, and
  user registration.
- `InitialServer` (backup/initial_folder_code.js). It has the combined
  `/items` listing, upload, folder creation, renames, and a one-level
  folder delete that drops the files inside the folder.
- `FileServer` (server/index.js). It has a single file list with search and
  pagination, uploads restricted to an extension allow-list, and a delete
  that unlinks the blob first.

Two modules hold what the servers share:

- `Drive` has the record type, the HTTP outcomes (`Reply`), id lookup,
  "last id + 1" allocation, ASCII lower-casing, substring search and the
  upload filename normalisation.
- `Query` has the listing pipeline. The filters are order-preserving
  subsequences. The sort is specified by its result: a permutation ordered
  by the field. Pagination takes the slice `[(page-1)*limit, page*limit)`.

The client side is modelled in four modules:

- `ItemsSelection` is the selection set shared by the file and folder
  lists. It is a class whose methods change the set in place and record
  each 'select-change' event.
- `UploadState` holds the upload state constants and the per-item state
  predicates.
- `UploadStatistics` holds the counters and the progress total over the
  upload list.
- `IconFileType` maps a MIME type to an icon component.

Handlers that change the store are methods with `modifies this`. Each one
states the whole new state. Read-only handlers are functions that read the
store. I/O that a handler depends on becomes a parameter:

- `received` says whether multer accepted the upload.
- `unlinked` says whether removing the blob from disk succeeded.
- `now` is `Date.now()`.
- `hashed` is the bcrypt hash of the password.

Query-string and body values arrive already parsed. An absent or falsy
string is `""`, an absent number is `None`, and a page or limit is a whole
number of at least 1.

## Model

| member | source | states |
|---|---|---|
| Drive.IndexOf | backup/server_code_before_persisting.js:376 | `findIndex` by id: the first index holding the id, or -1 exactly when no record has it |
| Drive.FindById | backup/server_code_before_persisting.js:261 | `find` by id: the first record of the list with that id, or none exactly when no record has it |
| Drive.Lookup | backup/server_code_before_persisting.js:259-277 | a get-by-id handler answers 200 with the first stored record of that id, or 404 exactly when no record has it; `GetFile` and `GetFolder` of every server answer with it |
| Drive.RemoveAt | backup/server_code_before_persisting.js:383 | `splice(i, 1)`: one shorter, the records before i unchanged, the ones after shifted down by one |
| Drive.NextIdFresh | backup/server_code_before_persisting.js:293 | while ids strictly increase, "last id + 1" is greater than every id in the list |
| Drive.AppendNextIdIncreasing | backup/server_code_before_persisting.js:293-298 | appending a record with id "last id + 1" keeps ids strictly increasing |
| Drive.Lower | backup/server_code_before_persisting.js:202 | `toLowerCase` keeps the length and lower-cases each ASCII letter in place |
| Drive.NormaliseFilename | server/index.js:28 | the stored name has the original's length, no spaces and no upper-case ASCII letters; spaces become '-', other characters are lower-cased |
| Drive.NormaliseIdempotent | server/index.js:28 | normalising a stored name again changes nothing |
| Query.Filter | backup/server_code_before_persisting.js:196-209 | `filter` keeps exactly the records satisfying the test, each as often as it occurs in the input, as an order-preserving subsequence, never longer |
| Query.PrecedesTotal | backup/server_code_before_persisting.js:213 | any two records are ordered one way or the other by the sort field, in either direction |
| Query.PrecedesTrans | backup/server_code_before_persisting.js:213 | the order by the sort field is transitive, so a sorted listing is well defined |
| Query.SortBy | backup/server_code_before_persisting.js:211-214 | the sorted list is a permutation of its input, ordered by the field, descending when `_order=desc` |
| Query.Paginate | backup/server_code_before_persisting.js:216-220 | a page holds at most `limit` records; it is empty exactly when it starts past the end; otherwise it holds min(limit, what remains) records; its k-th record is record (page-1)*limit+k of the input |
| Query.PaginateSorted | backup/server_code_before_persisting.js:216-220 | a page of a sorted list is sorted, and it holds only records of the list |
| Query.FilteredCounts | backup/server_code_before_persisting.js:196-209 | after the three filters, a record occurs as often as it is stored when it has the asked parent, a name containing the term and the asked `starred` value, and not at all otherwise |
| Query.FilteredInOrder | backup/server_code_before_persisting.js:196-209 | the three filters together give an order-preserving subsequence of the stored list |
| Query.FilteredSpec | backup/server_code_before_persisting.js:196-209 | the three filters together keep exactly the records with the asked parent, a name containing the term and the asked `starred` value, each as often as it is stored, in stored order |
| Query.RunQuerySpec | backup/server_code_before_persisting.js:191-223 | a listing holds only stored records that pass every filter; it is sorted when `_sort` is given; without paging it holds every such record as often as stored, and without `_sort` as well it keeps stored order; with paging it holds at most `limit` |
| Query.UnstarredFieldNeverListed | backup/server_code_before_persisting.js:206-209 | a record without a `starred` field is in no listing that filters on `starred`, whether `true` or `false` is asked |
| PersistingServer.EmailPatternIff | backup/server_code_before_persisting.js:123-126 | the email pattern accepts exactly the strings with no whitespace and exactly one '@', not first, followed by a '.' with a character on each side |
| PersistingServer.RejectedEmails | backup/server_code_before_persisting.js:123-126 | "a@b.c" passes the pattern; "a@b", "a b@c.d" and "@b.c" do not |
| PersistingServer.MaxId | backup/server_code_before_persisting.js:137 | `Math.max` of the user ids is at least every id and is the id of some user |
| PersistingServer.NewUserId | backup/server_code_before_persisting.js:137 | a new user's id is the largest existing id plus one, or 1 when there are no users, so it is greater than every existing user's id |
| PersistingServer.PatchOnlySupplied | backup/server_code_before_persisting.js:356-368 | an update keeps the id and blob; every field the body supplies takes the body's value, and every field it leaves out keeps its value; an empty body changes nothing |
| PersistingServer.SetStarred | backup/server_code_before_persisting.js:439-450 | the first record with the id has `starred` set to the value, with its other fields kept; with no such record the list is unchanged; the list's length and every record's id are kept |
| PersistingServer.SetStarredIdempotent | backup/server_code_before_persisting.js:413-463 | starring or unstarring twice is the same as once, and every record other than the addressed one is unchanged |
| PersistingServer.Store.constructor | backup/server_code_before_persisting.js:24-27 | the store starts as read from db.json |
| PersistingServer.Store.Register | backup/server_code_before_persisting.js:114-160 | 400 with no change exactly when a field is missing, the email fails the pattern or is already registered; otherwise one user is appended, with an id above every existing id and the password hash |
| PersistingServer.Store.ListFiles | backup/server_code_before_persisting.js:191-223 | the reply is the listing of the files as they were; when `_sort` is given and no filter ran, `db.files` itself is left sorted, otherwise it is unchanged; it always keeps the same records |
| PersistingServer.Store.ListFolders | backup/server_code_before_persisting.js:225-257 | the same over `db.folders` |
| PersistingServer.Store.SubFolders | backup/server_code_before_persisting.js:279-283 | exactly the folders whose parent is the id, each as often as it is stored, in stored order |
| PersistingServer.Store.FilesInFolder | backup/server_code_before_persisting.js:303-323 | 404 exactly when no folder has the id; otherwise exactly the files directly in it, each as often as stored, sorted when `_sort` is given and in stored order otherwise |
| PersistingServer.Store.CreateFolder | backup/server_code_before_persisting.js:285-301 | 400 with no change exactly when the name is missing; otherwise one folder appended with id "last id + 1" and parent defaulting to 0, whose id exceeds every existing one while ids increase |
| PersistingServer.Store.UploadFile | backup/server_code_before_persisting.js:325-346 | 400 exactly when multer fails; otherwise 201 with a record of id "last id + 1" that, while ids increase, no stored file carries: the record is not added |
| PersistingServer.Store.UpdateFile | backup/server_code_before_persisting.js:348-372 | 404 with no change exactly when no file has the id; otherwise only the first file with the id changes, to its patched version |
| PersistingServer.Store.DeleteFile | backup/server_code_before_persisting.js:374-393 | 404 with no change exactly when no file has the id; otherwise that record is spliced out, and the reply is 500 exactly when the unlink fails |
| PersistingServer.Store.DeleteFolder | backup/server_code_before_persisting.js:395-411 | 404 for an unknown id; 400 exactly when the folder exists and a file lies directly in it; otherwise that one folder record is spliced out; files never change |
| PersistingServer.Store.StarFolder | backup/server_code_before_persisting.js:413-437 | 404 with no change exactly when no folder has the id; otherwise only that folder's `starred` is set |
| PersistingServer.Store.StarFile | backup/server_code_before_persisting.js:439-463 | 404 with no change exactly when no file has the id; otherwise only that file's `starred` is set |
| PersistingServer.InPlaceSortRepeatsId | backup/server_code_before_persisting.js:245-248 | folders with ids 1 and 2, listed with `_sort=id&_order=desc` and no filter, are stored as [2, 1], after which "last id + 1" is 2 again |
| PersistingServer.DuplicateIdAfterSortedListing | backup/server_code_before_persisting.js:245-301 | on a store whose folders have ids 1 and 2, the handlers for `GET /folders?_sort=id&_order=desc` and then `POST /folders` leave two different folders with id 2 |
| PersistingServer.ListingOnCopyKeepsNextIdFresh | backup/server_code_before_persisting.js:292-298 | a listing that works on a copy leaves the store alone, so "last id + 1" stays above every listed id and appending it keeps ids increasing |
| InitialServer.Store.constructor | backup/initial_folder_code.js:20 | the store starts as read from db.json |
| InitialServer.Store.Items | backup/initial_folder_code.js:45-81 | both lists hold only records whose parent is the asked folder (root by default) and whose names contain the term; each is sorted when `_sort` is given; each holds at most `limit` when paged; without paging each holds every such record, and without `_sort` as well each keeps stored order |
| InitialServer.Store.UploadFile | backup/initial_folder_code.js:106-131 | 400 with no change exactly when multer fails; otherwise one file appended with id "last id + 1" and parent defaulting to 0, which a lookup by its id then finds |
| InitialServer.Store.CreateFolder | backup/initial_folder_code.js:134-150 | 400 with no change exactly when the name is missing; otherwise one folder appended with id "last id + 1" and parent defaulting to 0 |
| InitialServer.Store.RenameFile | backup/initial_folder_code.js:153-169 | 400 exactly when the name is missing, even for an unknown id; then 404 with no change for an unknown id; otherwise only that file's name changes |
| InitialServer.Store.RenameFolder | backup/initial_folder_code.js:172-188 | the same rules over the folders |
| InitialServer.Store.DeleteFile | backup/initial_folder_code.js:191-202 | 404 with no change exactly when no file has the id; otherwise that record is spliced out and the others keep their order |
| InitialServer.Store.DeleteFolder | backup/initial_folder_code.js:205-217 | 404 with no change for an unknown id; otherwise that folder record goes, every other folder stays, and the files kept are exactly those whose parent is not the id, each as often as it was stored, in order |
| FileServer.LastDot | server/index.js:39 | the position of the last '.' in a name, or -1 when there is none |
| FileServer.ValidateFileTypeIff | server/index.js:38-43 | the filter accepts a name exactly when the text after its last '.' is one of jpg, jpeg, png, gif, doc, docx, pdf, xls, xlsx |
| FileServer.AcceptedNames | server/index.js:39 | "photo.jpeg" and "report.final.pdf" pass the filter |
| FileServer.UpperCaseRefused | server/index.js:39 | the match is case-sensitive: "A.JPG" is refused |
| FileServer.BareExtensionRefused | server/index.js:39 | a name without a '.' is refused, even "jpg" |
| FileServer.Store.constructor | server/index.js:20 | the store starts as read from db.json |
| FileServer.Store.ListFiles | server/index.js:46-62 | only stored files whose lowercased name contains the lowercased term; without paging all of them, each as often as it is stored, in stored order; with paging the slice `[(page-1)*limit, page*limit)` of them: empty when the page starts past the end, otherwise min(limit, what remains) long |
| FileServer.Store.UploadFile | server/index.js:76-95 | 400 with no change exactly when the filter refuses the name or multer fails; otherwise one record appended with id "last id + 1", no parent link, and the normalised stored name |
| FileServer.Store.DeleteFile | server/index.js:98-115 | 404 for an unknown id; 500 with no change exactly when the unlink fails; otherwise that record is spliced out |
| UploadState.PhaseOf | src/composable/upload-state.js:5-8 | every state falls in exactly one phase; `isUploading`, `isFailed` (equally `isCanceled`) and `isComplete` test three of them, and the fourth holds exactly for the states outside the constants |
| UploadState.CanceledIsFailed | src/composable/upload-state.js:5-7 | `isCanceled` and `isFailed` agree on every item |
| UploadState.AtMostOnePhase | src/composable/upload-state.js:6-8 | at most one of `isUploading`, `isFailed` and `isComplete` holds |
| UploadState.UnknownStateMatchesNothing | src/composable/upload-state.js:5-8 | a state outside the defined constants satisfies none of the four predicates |
| UploadStatistics.CountWhere | src/composable/upload-statistics.js:6 | a `filter(...).length` count is at most the number of items |
| UploadStatistics.CountWhereAppend | src/composable/upload-statistics.js:6 | a `filter(...).length` count is additive over concatenation, and one item counts 1 exactly when it satisfies the test and 0 otherwise |
| UploadStatistics.ProcessingItems | src/composable/upload-statistics.js:13-15 | exactly the items that are not failed, each as often as it is listed, as an order-preserving subsequence of the list |
| UploadStatistics.FailedCountsCanceled | src/composable/upload-statistics.js:9-11 | the failed count equals the number of canceled items and the number of failed items |
| UploadStatistics.UploadingCountsIsUploading | src/composable/upload-statistics.js:5-7 | the uploading count is the number of items `isUploading` holds for |
| UploadStatistics.ProcessingPlusFailed | src/composable/upload-statistics.js:9-17 | the processing count plus the failed count is the number of items |
| UploadStatistics.UploadingPlusCompleteBound | src/composable/upload-statistics.js:5-21 | uploading plus complete is at most processing, and each count is at most the number of items |
| UploadStatistics.ProgressIsLiveSum | src/composable/upload-statistics.js:19 | the progress total is the sum of the progress of the items that are not failed, and 0 when none is processing |
| UploadStatistics.ProgressBounded | src/composable/upload-statistics.js:19 | with percentages between 0 and 100, the total is between 0 and 100 times the processing count |
| ItemsSelection.Toggle | src/composable/items-selection.js:17-22 | the item's membership flips and every other item's membership stays |
| ItemsSelection.ToggleTwice | src/composable/items-selection.js:17-22 | toggling the same item twice restores the selection |
| ItemsSelection.ToggleSize | src/composable/items-selection.js:17-22 | toggling changes the selection's size by exactly one |
| ItemsSelection.Selection.constructor | src/composable/items-selection.js:6 | the shared set starts empty, with no event emitted |
| ItemsSelection.Selection.SelectOne | src/composable/items-selection.js:10-15 | the set becomes exactly the item, and one event carrying it is emitted after the change |
| ItemsSelection.Selection.SelectMultiple | src/composable/items-selection.js:17-25 | the set is the old one toggled at the item, and one event carrying it is emitted after the change |
| ItemsSelection.Selection.IsSelected | src/composable/items-selection.js:27 | true for any item in the set; true for an item with the id of the first `selected` entry when that entry has a MIME type; otherwise false; with no such file entry, exactly set membership |
| ItemsSelection.Selection.ClearSelected | src/composable/items-selection.js:29-32 | the set becomes empty, and one event carrying it is emitted |
| IconFileType.Read | src/composable/icon-file-type.js:14 | a property read finds an own entry exactly for the table's MIME types, and an inherited member only for an Object.prototype member name |
| IconFileType.TableKeysAreNotInherited | src/composable/icon-file-type.js:3-12 | no MIME type of the table is an Object.prototype member name |
| IconFileType.IconLookup | src/composable/icon-file-type.js:14 | as written, the lookup always yields something truthy, and it yields an inherited member exactly when the type names one |
| IconFileType.IconFor | src/composable/icon-file-type.js:3-14 | the icon is always one of the seven names, and it is not the generic icon exactly when the type is one of the eight listed, and then it is that type's icon in the table |
| IconFileType.IconLookupAgrees | src/composable/icon-file-type.js:14 | on every type that is not an Object.prototype member name, the lookup as written and the corrected one give the same icon |
| IconFileType.ConstructorEscapes | src/composable/icon-file-type.js:14 | as written, the type "constructor" yields the inherited Object constructor, where the corrected lookup gives the generic icon |
| IconFileType.IconExamples | src/composable/icon-file-type.js:3-14 | each of the eight types gives its icon, the three image types sharing the image icon; "IMAGE/PNG" and a missing type give the generic icon |

## Left out

- Express routing, CORS, static serving and response bodies are not modelled. Each handler returns only its status and the record or list it sends.
- Persistence is not modelled: writing and re-reading db.json, and the chokidar watcher that reloads it on change. The watcher is an external event that could interleave with requests. Concurrent requests are left out too.
- Login, JWT signing and verification, `authenticateToken`, and bcrypt hashing are not modelled. These are foreign cryptographic calls. The hash enters `Register` as a parameter.
- The `/register` reply carries an access token and only the email and id. The model returns the stored user instead.
- Multer's streaming and its 5 GB size limit are outside the model. Only its outcome is modelled, as `received`.
- `PersistingServer.Store.UploadFile`, `InitialServer.Store.UploadFile` and `FileServer.Store.UploadFile`: a request with no file part passes multer without error and leaves `req.file` undefined. The handler then throws a TypeError on `req.file.originalname` instead of answering. The model does not have this case: when `received` holds, a file is taken to be present.
- The two backup servers' file filter accepts every type, so it is folded into `received`.
- The file's `url` and `path` are left out. The stored name stands for both.
- `parseInt` giving NaN is left out. Ids and parents are modelled as already-parsed numbers.
- Page and limit are modelled as numbers of at least 1. Non-numeric strings, and a page of 0, are left out.
- `users` falling back to `{}` when db.json has no `users` key is left out. The model starts from a list.
- `PersistingServer.Store.UpdateFile`: the body's `name` and `starred` may be any JSON value, for instance the string "true" for `starred`, and are stored as given. The model takes `starred` as a boolean and `name` as a string.
- `PersistingServer.Store.CreateFolder`: stores `folderId || 0` as given in the body, which may be a string. The model takes it as a number.
- `toLowerCase` outside ASCII is not modelled. Unicode case mapping is not modelled.
- `_sort` on fields other than id, name, folderId and createdAt is left out. That includes mimeType and starred.
- `Query.SortBy`: the source's comparator never answers "equal", so the order of records with equal keys, and where records lacking the field go, is up to the JavaScript engine. The model fixes one such order: stable, and `Sorted` puts a record lacking the field first when ascending and last when descending. That placement is the model's choice, not the engine's, and the new state of `PersistingServer.Store.ListFiles` and `PersistingServer.Store.ListFolders` inherits it.
- `Query.TextLe`: JavaScript compares strings by UTF-16 code unit, the model by Unicode scalar value. The two orders differ when a character above U+FFFF meets one in U+E000..U+FFFF, so name sorting is not modelled for such names.
- `InitialServer.Store.Items`: for a paged request, the contract states the bound of at most `limit` per list. It does not state which slice is returned, nor, without `_sort`, that the page keeps stored order. `Query.Paginate` states the slice.
- `PersistingServer.Store.UploadFile`: the blob that multer writes to disk even though no record is kept is not modelled.
- `ItemsSelection.Selection.IsSelected`: the source returns the last operand of its `||`/`&&` chain, such as the MIME type string. The model returns its truthiness.
- Each component using the selection passes its own `emit`. The model records every 'select-change' event in one log.
- Vue reactivity (`reactive`, `computed`) is not modelled. The statistics are computed once over a given list.
- Upload progress is modelled as a whole-number percentage. Floating point is left out.
- Icon registration, the router, the local-storage auth store and the HTTP client wrappers are not part of this model.

## Findings

| source | as written | input that shows it | evidently intended | confidence | as-written member | corrected member |
|---|---|---|---|---|---|---|
| src/composable/icon-file-type.js:14 | `iconTypes[type]` reads through the prototype chain, so a type naming an Object.prototype member yields that member, which is truthy, in place of an icon name | type "constructor" yields the Object constructor function | any type not in the table gets 'icon-type-common' | high; not executed | IconFileType.ConstructorEscapes | IconFileType.IconFor |
| backup/server_code_before_persisting.js:245-248 | with no filter, `sort` reorders `db.folders` itself, and ids are allocated as "last id + 1" | folders with ids 1 and 2; `GET /folders?_sort=id&_order=desc`; then `POST /folders` gets id 2, a duplicate | listings leave the store's order alone, so the last folder keeps the highest id (the same holds for `db.files` at lines 211-214) | medium; not executed | PersistingServer.InPlaceSortRepeatsId | PersistingServer.ListingOnCopyKeepsNextIdFresh |
| backup/server_code_before_persisting.js:333-344 | the upload handler builds the record and answers 201 but never pushes it onto `db.files` | any successful upload while file ids increase; a later `GET /files/:id` for the returned id answers 404, and the next upload gets the same id | push the record, as backup/initial_folder_code.js:127 does | high; not executed | PersistingServer.Store.UploadFile | InitialServer.Store.UploadFile |

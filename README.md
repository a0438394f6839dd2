# Form data manager, modelled in Dafny

This project models `DataManager`, the in-memory store of submitted form data in the
`form` package (`sys/form/datamanager.go`). The store is a table `DataCluster` that maps
a form ID to that form's data, which maps field names to values. A value is nil, a file
object (`*file.IO`), a `map[string]interface{}` that may describe a file, or any other
value. The operations are:

- writes that change the table in place: `PutData` merges into a form or creates it,
  `PutDataWithoutMerge` replaces a form, `Clear` deletes one, and `PutDataFile` creates
  the form if needed and registers an uploaded file;
- keyed reads: `GetData`, `GetDataByPath`, `GetDataFile` and `GetDataFiles`;
- flatteners that merge every form into one result: `GetAllData`, `GetAllDataFile` and
  `GetAllDataFilePathNameOnly`;
- `mkFileInfos`, a pass that runs only once and is guarded by the `madeFileInfos` flag.

The error rules are: an empty form ID gives `os.ErrInvalid`, and a missing form or file
gives `os.ErrNotExist` where the Go code returns it.

Layout:

- `wrappers.dfy` (`Wrappers`): `Option`. `None` stands for Go's nil.
- `os.dfy` (`Os`): the two `os` sentinel errors.
- `file.dfy` (`File`): values, file handles, and `FileLib`. The `file` package is not
  part of this model, so `FileLib` holds its operations as uninterpreted function
  values (`MergeWith`, `Get`, `GetFileInfo`, `MakeFileInfos`, `IsFileInfo`, `FromMap`,
  `ToMap`, `Path`, `New`). The store gets one `FileLib` at construction and only calls it.
- `flatten.dfy` (`Flatten`): what the flatteners compute, as functions of the table and
  of the order in which the forms are visited, with lemmas about those functions.
- `datamanager.dfy` (`Form`): the class `DataManager`. `dataCluster` and
  `madeFileInfos` are mutable fields. The writers are methods with `modifies` frames.
  `GetData`, `GetDataByPath` and `GetDataFile` are functions that read `this`.
  `GetDataFiles` and the flatteners are methods with loops.

Go does not specify the order in which it iterates over a map. Each flattener loop
therefore picks the next form, and the next field within a form, arbitrarily among
those not yet visited. The postcondition of each flattener says the result equals the
`Flatten` function for some order that visits every form exactly once. The lemmas
then say what holds for every such order:

- `GetAllData`: the key set is every field name of every form. A name's value comes
  from the last visited form holding it. When no two forms share a field name, the
  result is the same for every order.
- `GetAllDataFile`: a name is in `files` exactly when some form holds a file object
  under it. It is in `dat` exactly when some form holds any other value under it. In
  each map a name's value comes from the last visited form that holds a value of that
  kind under it.
- `GetAllDataFilePathNameOnly`: the key set of `dat` is every field name of every
  form. A name's value comes from the last visited form holding it, with a file object
  replaced by its map form. `files` holds one path per file entry of every form, so its
  length is the number of file entries. The paths come form by form, in the same
  visiting order that determines `dat`. Within one form, the paths appear in the
  unspecified order in which Go walks that form's fields.

`PutDataFile` does not check for an empty form ID or an empty file name. The model
keeps this. Its `GetDataFile` lookup then fails with `ErrInvalid`, and it stores a new
file object under `name` in the entry `formID`. That entry is `""` when the ID is
empty. No other keyed operation accepts `""`, so that entry cannot be read or cleared
by ID. It still shows up in the flatteners. When the name is empty, the lookup never
finds a file, so a file already stored under the name `""` is replaced by a new one.

## Model

| member | source | states |
|---|---|---|
| `Form.DataManager.constructor` | sys/form/datamanager.go:18-23 | NewDataManager: empty table, flag not set, the given base path |
| `Form.DataManager.GetDataFile` | sys/form/datamanager.go:29-43 | empty ID or name gives ErrInvalid. A missing form gives ErrNotExist. For a stored form, the first result is exactly what GetFileInfo yields for the name. The error is nil when that is a file object and ErrNotExist when it is nil |
| `Form.DataManager.GetDataFiles` | sys/form/datamanager.go:45-63 | empty ID gives ErrInvalid. A missing form gives a nil map and no error. Otherwise the result holds exactly the form's file-valued entries, each with its file object |
| `Form.DataManager.GetData` | sys/form/datamanager.go:92-99 | ErrInvalid exactly when the ID is empty, and never any other error. Returns the stored map when the form exists, nil otherwise |
| `Form.DataManager.Clear` | sys/form/datamanager.go:101-109 | empty ID gives ErrInvalid and no change. Otherwise the form's key is removed, no other entry changes, and GetData then returns nil. Clearing an absent form changes nothing, so clearing twice equals clearing once |
| `Form.DataManager.GetDataByPath` | sys/form/datamanager.go:111-121 | empty ID gives ErrInvalid. A missing form gives (nil, nil). Otherwise it returns Get(dataPath) on the stored form, with no error |
| `Form.DataManager.GetAllData` | sys/form/datamanager.go:135-158 | an empty table gives nil. Otherwise the result is the overlay of the forms in some visiting order, and its keys are exactly the field names that occur in some form |
| `Form.DataManager.WriteAllData` | sys/form/datamanager.go:141-154 | the inner loop writes every entry of one form over `dat`: a file object as it is, a file-describing map as FromMap of it, anything else unchanged |
| `Form.DataManager.GetAllDataFilePathNameOnly` | sys/form/datamanager.go:176-196 | an empty table gives nil results. Otherwise there is one visiting order of the forms for both results. `dat` is the overlay in that order with file objects in their ToMap form, and its keys are all field names. `files` lists the path of every file entry across all forms once each, form by form in that order. So its length is the number of file entries |
| `Form.DataManager.WritePathNameOnly` | sys/form/datamanager.go:183-192 | the inner loop over one form writes its entries into `dat`. It keeps the paths already in `files` in front and appends exactly one path per file entry of that form after them |
| `Form.DataManager.GetAllDataFile` | sys/form/datamanager.go:198-218 | an empty table gives nil maps. Otherwise `files` and `dat` are the overlays of the forms' file entries and non-file entries in some order. A name is in `files` iff some form holds a file object under it, and in `dat` iff some form holds anything else under it |
| `Form.DataManager.SplitFiles` | sys/form/datamanager.go:207-215 | the inner loop over one form sends its file entries to `files` and all other entries to `dat` |
| `Form.DataManager.PutData` | sys/form/datamanager.go:220-234 | empty ID gives ErrInvalid and no change. Otherwise the form's entry becomes MergeWith(old entry, or an empty map if none, dat). No form is removed, no other entry changes, and GetData returns the merged map |
| `Form.DataManager.PutDataWithoutMerge` | sys/form/datamanager.go:236-244 | empty ID gives ErrInvalid and no change. Otherwise the entry is set to `dat`, no other entry changes, and GetData returns `dat` |
| `Form.DataManager.PutDataFile` | sys/form/datamanager.go:246-268 | the form's entry exists afterwards and is created empty if it was missing. When GetDataFile found no file, `name` maps to the new file object New(basePath, meta). Otherwise the table keeps the old entry. No other form changes |
| `Form.DataManager.MkFileInfos` | sys/form/datamanager.go:270-277 | afterwards the flag is set. If it was not set before, every form becomes MakeFileInfos of its old data and the key set is unchanged. If it was set, nothing changes |
| `Flatten.Overlay` | sys/form/datamanager.go:140-155 | writing maps one after another: a name is in the result iff some part holds it |
| `Flatten.OverlayLastWins` | sys/form/datamanager.go:140-155 | in an overlay, a name takes its value from the last part that holds it |
| `Flatten.AllDataKeys` | sys/form/datamanager.go:135-158 | for every visiting order, the keys of GetAllData's result are exactly the field names that occur in some form |
| `Flatten.AllDataFromLastForm` | sys/form/datamanager.go:140-154 | for every visiting order, a name's value is the resolved value from the last visited form that holds it |
| `Flatten.AllDataOfDisjoint` | sys/form/datamanager.go:140-154 | when no two forms share a field name, each name's value is the resolved value from the form that holds it |
| `Flatten.AllDataOrderIndependent` | sys/form/datamanager.go:140-154 | when no two forms share a field name, GetAllData gives the same result for every visiting order |
| `Flatten.FormSplit` | sys/form/datamanager.go:207-215 | within one form, each entry goes to exactly one of `files` and `dat` |
| `Flatten.AllDataFilePartition` | sys/form/datamanager.go:198-218 | for every visiting order, a name is in `files` iff some form holds a file object under it, and in `dat` iff some form holds a non-file value under it. So every field name of every form appears in one of the two |
| `Flatten.AllFilesFromLastFileForm` | sys/form/datamanager.go:206-216 | a name in `files` holds the file object of the last visited form that has a file object under that name. Non-file values under the same name do not overwrite it |
| `Flatten.AllNonFilesFromLastForm` | sys/form/datamanager.go:206-216 | a name in `dat` holds the value of the last visited form that has a non-file value under that name. File objects under the same name do not overwrite it |
| `Flatten.PathNameOnlyFromLastForm` | sys/form/datamanager.go:182-193 | for every visiting order, a name's value in the path-name-only `dat` comes from the last visited form holding it, with a file object in its ToMap form |
| `Flatten.PathNameOnlyKeys` | sys/form/datamanager.go:176-196 | for every visiting order, the keys of the path-name-only `dat` are exactly the field names that occur in some form |
| `Flatten.FilePathsOnePerEntry` | sys/form/datamanager.go:182-193 | a path list built one path per file entry has as many elements as there are file entries, and it contains the path of each one |

## Left out

- Locking: the `sync.RWMutex` embedded in `DataManager` is not modelled. Every method is one atomic step. This includes `Clear`, which deletes while holding only a read lock (sys/form/datamanager.go:103-105).
- `GetDataFileWriter` (sys/form/datamanager.go:65-90) is not modelled. It opens, stats and copies an OS file.
- `Form.DataManager.PutDataFile`: the model does not capture the `Write(reader)` of the file content, the `Update(name, contentType)` of an existing file object, or the `(written, err)` results. All of these come from that I/O, so the method has no outputs.
- `OnLoad` and `Close` are left out as trivial wrappers. `OnLoad` only calls `mkFileInfos`, and `Close` returns nil.
- The `file` package (`MapIO` methods, `IO`, `IsFileInfo`, `FromMap`, `New`) is not part of this model. Its operations are uninterpreted fields of `FileLib`, so nothing is proved about what they compute. `ToMap` is modelled only with the argument `true` that the Go code passes.
- Reference semantics of Go maps are not modelled. `GetData` returns the stored map itself, `PutDataWithoutMerge` stores the caller's map, and `MergeWith` and `MakeFileInfos` change a stored map in place. The model treats maps as values, so it does not capture aliasing between the table and callers. An in-place update appears as replacing the form's entry with the updated map.
- Nil maps are not told apart from empty maps inside the table. A form stored as a nil map reads like an empty one. The model keeps the nil/non-nil difference only for results (`None` for a nil map, slice or pointer).
- A typed nil `*file.IO` stored in an interface value is not representable. File values always hold a file object.
- `ui/wallet/src/ProxeusEthereum/config/ABI.js` is left out. It holds two constant contract-interface tables and no code that looks things up in them.
- `ui/core/.eslintrc.js` is left out. It is linter configuration.

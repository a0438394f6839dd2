/**
 * The in-memory form data store of the `form` package: a table from form ID to the
 * data of that form (field name to value), with writes that merge, replace or delete
 * one form's entry, keyed reads, and flatteners that merge all forms into one map.
 * Every method runs as one atomic step (the lock that makes this so in the Go code
 * is not part of this model).
 */
module Form {
  import opened Wrappers
  import opened Os
  import opened File
  import opened Flatten

  class DataManager {
    /** Form ID to the data of that form. */
    var dataCluster: Cluster
    /** The directory the file objects of this store live in. */
    const baseFilePath: string
    /** Whether the one-time pass that turns stored file descriptions into file objects has run. */
    var madeFileInfos: bool
    /** The operations of the `file` package this store calls. */
    const lib: FileLib

    /** NewDataManager: an empty store. */
    constructor (baseFilePath: string, lib: FileLib)
      ensures dataCluster == map[] && !madeFileInfos
      ensures this.baseFilePath == baseFilePath && this.lib == lib
    {
      this.baseFilePath := baseFilePath;
      this.lib := lib;
      dataCluster := map[];
      madeFileInfos := false;
    }

    // -------------------------------------------------------------------------------
    // Keyed reads

    /**
     * The file info stored for `name` in form `formID`: invalid without a form ID and a
     * name; otherwise the file object the form's data yields for the name when there is
     * one, and "does not exist" when the form is missing or yields no file object.
     */
    function GetDataFile(formID: string, name: string): (r: (Option<FileHandle>, Option<Error>))
      reads this
      ensures formID == "" || name == "" ==> r == (None, Some(ErrInvalid))
      ensures r.0.Some? <==> r.1 == None
      ensures r.0.Some? ==> formID in dataCluster && r.0 == lib.getFileInfo(dataCluster[formID], baseFilePath, name)
      ensures formID != "" && name != "" && r.0 == None ==> r.1 == Some(ErrNotExist)
      ensures formID != "" && name != "" && formID !in dataCluster ==> r == (None, Some(ErrNotExist))
      ensures formID != "" && name != "" && formID in dataCluster ==> r.0 == lib.getFileInfo(dataCluster[formID], baseFilePath, name)
    {
      if formID != "" && name != "" then
        if formID in dataCluster && lib.getFileInfo(dataCluster[formID], baseFilePath, name).Some? then
          (lib.getFileInfo(dataCluster[formID], baseFilePath, name), None)
        else
          (None, Some(ErrNotExist))
      else
        (None, Some(ErrInvalid))
    }

    /**
     * The data of form `formID`: invalid without a form ID; otherwise no error, with the
     * stored data when the form exists and nil when it does not.
     */
    function GetData(formID: string): (r: (Option<MapIO>, Option<Error>))
      reads this
      ensures r.1 == Some(ErrInvalid) <==> formID == ""
      ensures r.1 == None <==> formID != ""
      ensures r.0.Some? <==> formID != "" && formID in dataCluster
      ensures r.0.Some? ==> r.0.value == dataCluster[formID]
    {
      if formID != "" then
        (if formID in dataCluster then Some(dataCluster[formID]) else None, None)
      else
        (None, Some(ErrInvalid))
    }

    /**
     * The value at `dataPath` in form `formID`: invalid without a form ID; nil and no
     * error for a form that does not exist.
     */
    function GetDataByPath(formID: string, dataPath: string): (r: (Value, Option<Error>))
      reads this
      ensures formID == "" ==> r == (Nil, Some(ErrInvalid))
      ensures formID != "" ==> r.1 == None
      ensures formID != "" && formID !in dataCluster ==> r.0 == Nil
      ensures formID != "" && formID in dataCluster ==> r.0 == lib.get(dataCluster[formID], dataPath)
    {
      if formID != "" then
        if formID in dataCluster then (lib.get(dataCluster[formID], dataPath), None)
        else (Nil, None)
      else
        (Nil, Some(ErrInvalid))
    }

    /**
     * The file objects of form `formID`: invalid without a form ID; nil and no error for
     * a form that does not exist; otherwise exactly the entries of the form whose value
     * is a file object. `baseUri` is not used.
     */
    method GetDataFiles(formID: string, baseUri: string) returns (files: Option<map<string, FileHandle>>, err: Option<Error>)
      ensures formID == "" ==> files == None && err == Some(ErrInvalid)
      ensures formID != "" ==> err == None
      ensures files.Some? <==> formID != "" && formID in dataCluster
      ensures files.Some? ==> forall n :: n in files.value <==> n in dataCluster[formID] && dataCluster[formID][n].File?
      ensures files.Some? ==> forall n | n in files.value :: dataCluster[formID][n] == File(files.value[n])
    {
      files, err := None, None;
      if formID != "" {
        if formID in dataCluster {
          var formDataMap := dataCluster[formID];
          var found: map<string, FileHandle> := map[];
          var names := formDataMap.Keys;
          while names != {}
            invariant names <= formDataMap.Keys
            invariant forall n :: n in found <==> n in formDataMap && n !in names && formDataMap[n].File?
            invariant forall n | n in found :: formDataMap[n] == File(found[n])
            decreases names
          {
            var name :| name in names;
            var maybeFile := formDataMap[name];
            if maybeFile.File? {
              found := found[name := maybeFile.io];
            }
            names := names - {name};
          }
          files := Some(found);
        }
        return;
      }
      err := Some(ErrInvalid);
    }

    // -------------------------------------------------------------------------------
    // Writes

    /**
     * Merges `dat` into the data of form `formID`, creating the entry (as an empty map
     * merged with `dat`) when the form is new. Invalid without a form ID, and then
     * nothing changes. No form is ever removed and no other form is touched.
     */
    method PutData(formID: string, dat: MapIO) returns (err: Option<Error>)
      modifies this`dataCluster
      ensures formID == "" ==> err == Some(ErrInvalid) && dataCluster == old(dataCluster)
      ensures formID != "" ==> err == None
      ensures formID != "" ==> dataCluster.Keys == old(dataCluster).Keys + {formID}
      ensures formID != "" ==> dataCluster[formID] == lib.mergeWith(old(FormAt(dataCluster, formID)), dat)
      ensures forall id | id in old(dataCluster) && id != formID :: dataCluster[id] == old(dataCluster)[id]
      ensures formID != "" ==> GetData(formID) == (Some(lib.mergeWith(old(FormAt(dataCluster, formID)), dat)), None)
    {
      if formID != "" {
        if formID in dataCluster {
          var mapIO := dataCluster[formID];
          dataCluster := dataCluster[formID := lib.mergeWith(mapIO, dat)];
        } else {
          var mapIO: MapIO := map[];
          dataCluster := dataCluster[formID := lib.mergeWith(mapIO, dat)];
        }
        return None;
      }
      return Some(ErrInvalid);
    }

    /**
     * Replaces the data of form `formID` with `dat`. Invalid without a form ID, and then
     * nothing changes. No other form is touched, and reading the form back yields `dat`.
     */
    method PutDataWithoutMerge(formID: string, dat: MapIO) returns (err: Option<Error>)
      modifies this`dataCluster
      ensures formID == "" ==> err == Some(ErrInvalid) && dataCluster == old(dataCluster)
      ensures formID != "" ==> err == None
      ensures formID != "" ==> dataCluster.Keys == old(dataCluster).Keys + {formID}
      ensures formID != "" ==> GetData(formID) == (Some(dat), None)
      ensures forall id | id in old(dataCluster) && id != formID :: dataCluster[id] == old(dataCluster)[id]
    {
      if formID != "" {
        dataCluster := dataCluster[formID := dat];
        return None;
      }
      return Some(ErrInvalid);
    }

    /**
     * Deletes the entry of form `formID`; deleting a form that does not exist succeeds
     * and changes nothing, so clearing twice is the same as clearing once. Invalid
     * without a form ID, and then nothing changes. No other form is touched.
     */
    method Clear(formID: string) returns (err: Option<Error>)
      modifies this`dataCluster
      ensures formID == "" ==> err == Some(ErrInvalid) && dataCluster == old(dataCluster)
      ensures formID != "" ==> err == None
      ensures formID != "" ==> dataCluster.Keys == old(dataCluster).Keys - {formID}
      ensures formID != "" ==> GetData(formID) == (None, None)
      ensures formID !in old(dataCluster) ==> dataCluster == old(dataCluster)
      ensures forall id | id in dataCluster :: dataCluster[id] == old(dataCluster)[id]
    {
      if formID != "" {
        dataCluster := dataCluster - {formID};
        return None;
      }
      return Some(ErrInvalid);
    }

    /**
     * Registers an uploaded file under `name` in form `formID`. The form's entry is
     * created empty when missing. When no file info exists yet for the name (also when
     * the ID or the name is empty: this method does not reject them), a new file object
     * built from `meta` is stored under the name; otherwise the existing file object is
     * updated in place and the table is left as it was. No other form is touched.
     */
    method PutDataFile(formID: string, name: string, meta: Meta)
      modifies this`dataCluster
      ensures dataCluster.Keys == old(dataCluster).Keys + {formID}
      ensures forall id | id in old(dataCluster) && id != formID :: dataCluster[id] == old(dataCluster)[id]
      ensures old(GetDataFile(formID, name)).0 == None ==>
                dataCluster[formID] == old(FormAt(dataCluster, formID))[name := File(lib.newFile(baseFilePath, meta))]
      ensures old(GetDataFile(formID, name)).0 != None ==>
                dataCluster[formID] == old(FormAt(dataCluster, formID))
    {
      var (existingFileInfo, err) := GetDataFile(formID, name);
      var formDataMap: MapIO;
      if formID in dataCluster {
        formDataMap := dataCluster[formID];
      } else {
        formDataMap := map[];
        dataCluster := dataCluster[formID := formDataMap];
      }
      if err == Some(ErrNotExist) || existingFileInfo == None {
        var created := lib.newFile(baseFilePath, meta);
        formDataMap := formDataMap[name := File(created)];
        dataCluster := dataCluster[formID := formDataMap];
      }
    }

    /**
     * The one-time pass: while it has not run, every form's data is replaced by the result
     * of MakeFileInfos on it and the flag is set; once the flag is set, nothing changes.
     */
    method MkFileInfos()
      modifies this`dataCluster, this`madeFileInfos
      ensures madeFileInfos
      ensures old(madeFileInfos) ==> dataCluster == old(dataCluster)
      ensures !old(madeFileInfos) ==> dataCluster.Keys == old(dataCluster).Keys
      ensures !old(madeFileInfos) ==>
                forall id | id in dataCluster :: dataCluster[id] == lib.makeFileInfos(old(dataCluster)[id], baseFilePath)
    {
      if !madeFileInfos {
        ghost var initial := dataCluster;
        var remaining := dataCluster.Keys;
        while remaining != {}
          invariant remaining <= initial.Keys
          invariant dataCluster.Keys == initial.Keys
          invariant forall id | id in initial ::
                      dataCluster[id] == if id in remaining then initial[id] else lib.makeFileInfos(initial[id], baseFilePath)
          decreases remaining
        {
          var id :| id in remaining;
          var mapIO := dataCluster[id];
          dataCluster := dataCluster[id := lib.makeFileInfos(mapIO, baseFilePath)];
          remaining := remaining - {id};
        }
        madeFileInfos := true;
      }
    }

    // -------------------------------------------------------------------------------
    // Flatteners. Each ranges over the forms in the map's iteration order (the next
    // form is picked arbitrarily among those not visited yet) and, for each form, over
    // its entries; the loop over one form's entries is a method of its own.

    /**
     * All forms merged into one map, with file objects and file descriptions turned into
     * file objects: nil for an empty table; otherwise the overlay of the forms in some
     * order that visits each form once.
     */
    method GetAllData() returns (dat: Option<map<string, Value>>, err: Option<Error>)
      ensures err == None
      ensures dataCluster == map[] <==> dat == None
      ensures dat.Some? ==> exists order :: IsEnumeration(order, dataCluster) && dat.value == AllData(lib, baseFilePath, dataCluster, order)
      ensures dat.Some? ==> forall n :: n in dat.value <==> exists id :: id in dataCluster && n in dataCluster[id]
    {
      dat, err := None, None;
      if |dataCluster| > 0 {
        var d: map<string, Value> := map[];
        var remaining := dataCluster.Keys;
        ghost var visited: seq<string> := [];
        while remaining != {}
          invariant remaining <= dataCluster.Keys
          invariant forall id :: id in visited <==> id in dataCluster && id !in remaining
          invariant forall i, j | 0 <= i < j < |visited| :: visited[i] != visited[j]
          invariant d == AllData(lib, baseFilePath, dataCluster, visited)
          decreases remaining
        {
          var id :| id in remaining;
          AllDataStep(lib, baseFilePath, dataCluster, visited, id);
          d := WriteAllData(dataCluster[id], d);
          remaining := remaining - {id};
          visited := visited + [id];
        }
        AllDataKeys(lib, baseFilePath, dataCluster, visited);
        dat := Some(d);
      }
    }

    /**
     * The loop of GetAllData over one form: writes every entry of the form into `dat`,
     * a file object as it is, a map that describes a file as the file object built from
     * it, and anything else unchanged.
     */
    method WriteAllData(formDataMap: MapIO, dat: map<string, Value>) returns (r: map<string, Value>)
      ensures r == dat + AllDataPart(lib, baseFilePath, formDataMap)
    {
      r := dat;
      var names := formDataMap.Keys;
      while names != {}
        invariant names <= formDataMap.Keys
        invariant forall n :: n in r <==> n in dat || (n in formDataMap && n !in names)
        invariant forall n | n in r ::
                    r[n] == if n in formDataMap && n !in names then Resolved(lib, baseFilePath, formDataMap[n]) else dat[n]
        decreases names
      {
        var name :| name in names;
        var maybeFile := formDataMap[name];
        names := names - {name};
        match maybeFile {
          case File(fileInfo) =>
            r := r[name := File(fileInfo)];
            continue;
          case Object(fileMap) =>
            if lib.isFileInfo(fileMap) {
              r := r[name := File(lib.fromMap(baseFilePath, fileMap))];
              continue;
            }
          case _ =>
        }
        r := r[name := maybeFile];
      }
      OverlayPointwise(r, dat, AllDataPart(lib, baseFilePath, formDataMap));
    }

    /**
     * All forms split into one map of file objects and one map of everything else: nil
     * maps for an empty table; otherwise, for some order that visits each form once,
     * the overlay of the forms' file entries and the overlay of their other entries.
     * `baseUri` is not used.
     */
    method GetAllDataFile(baseUri: string) returns (dat: Option<map<string, Value>>, files: Option<map<string, FileHandle>>, err: Option<Error>)
      ensures err == None
      ensures dataCluster == map[] <==> dat == None
      ensures dataCluster == map[] <==> files == None
      ensures dat.Some? && files.Some? ==>
                exists order :: && IsEnumeration(order, dataCluster)
                                && dat.value == AllNonFiles(dataCluster, order)
                                && files.value == AllFiles(dataCluster, order)
      ensures files.Some? ==> forall n :: n in files.value <==> exists id :: id in dataCluster && n in dataCluster[id] && dataCluster[id][n].File?
      ensures dat.Some? ==> forall n :: n in dat.value <==> exists id :: id in dataCluster && n in dataCluster[id] && !dataCluster[id][n].File?
    {
      dat, files, err := None, None, None;
      if |dataCluster| == 0 {
        return;
      }
      var d: map<string, Value> := map[];
      var fs: map<string, FileHandle> := map[];
      var remaining := dataCluster.Keys;
      ghost var visited: seq<string> := [];
      while remaining != {}
        invariant remaining <= dataCluster.Keys
        invariant forall id :: id in visited <==> id in dataCluster && id !in remaining
        invariant forall i, j | 0 <= i < j < |visited| :: visited[i] != visited[j]
        invariant d == AllNonFiles(dataCluster, visited)
        invariant fs == AllFiles(dataCluster, visited)
        decreases remaining
      {
        var id :| id in remaining;
        AllDataFileStep(dataCluster, visited, id);
        d, fs := SplitFiles(dataCluster[id], d, fs);
        remaining := remaining - {id};
        visited := visited + [id];
      }
      AllDataFilePartition(dataCluster, visited);
      dat, files := Some(d), Some(fs);
    }

    /**
     * The loop of GetAllDataFile over one form: writes each entry whose value is a file
     * object into `files` and every other entry into `dat`.
     */
    method SplitFiles(formDataMap: MapIO, dat: map<string, Value>, files: map<string, FileHandle>)
      returns (dat': map<string, Value>, files': map<string, FileHandle>)
      ensures dat' == dat + NonFilePart(formDataMap)
      ensures files' == files + FilePart(formDataMap)
    {
      dat', files' := dat, files;
      var names := formDataMap.Keys;
      while names != {}
        invariant names <= formDataMap.Keys
        invariant forall n :: n in files' <==> n in files || (n in formDataMap && n !in names && formDataMap[n].File?)
        invariant forall n | n in files' ::
                    files'[n] == if n in formDataMap && n !in names && formDataMap[n].File? then formDataMap[n].io else files[n]
        invariant forall n :: n in dat' <==> n in dat || (n in formDataMap && n !in names && !formDataMap[n].File?)
        invariant forall n | n in dat' ::
                    dat'[n] == if n in formDataMap && n !in names && !formDataMap[n].File? then formDataMap[n] else dat[n]
        decreases names
      {
        var name :| name in names;
        var maybeFile := formDataMap[name];
        names := names - {name};
        if maybeFile.File? {
          files' := files'[name := maybeFile.io];
          continue;
        }
        dat' := dat'[name := maybeFile];
      }
      OverlayPointwise(files', files, FilePart(formDataMap));
      OverlayPointwise(dat', dat, NonFilePart(formDataMap));
    }

    /**
     * All forms merged into one map with every file object replaced by its map form,
     * plus the list of the paths of all file objects: nil results for an empty table;
     * otherwise the overlay of the forms in some order that visits each form once, and
     * one path per file entry across all forms (see ListsFilePaths).
     */
    method GetAllDataFilePathNameOnly() returns (dat: Option<map<string, Value>>, files: Option<seq<string>>)
      ensures dataCluster == map[] <==> dat == None
      ensures dataCluster == map[] <==> files == None
      ensures dat.Some? && files.Some? ==>
                exists order, origins ::
                  && IsEnumeration(order, dataCluster)
                  && dat.value == PathNameOnlyData(lib, dataCluster, order)
                  && ListsFilePaths(lib, dataCluster, origins, files.value)
                  && FollowsOrder(origins, order)
      ensures files.Some? ==> |files.value| == |FileEntries(dataCluster)|
      ensures files.Some? ==> forall e | e in FileEntries(dataCluster) :: lib.path(EntryFile(dataCluster, e)) in files.value
      ensures dat.Some? ==> forall n :: n in dat.value <==> exists id :: id in dataCluster && n in dataCluster[id]
    {
      dat, files := None, None;
      if |dataCluster| > 0 {
        var d: map<string, Value> := map[];
        var fs: seq<string> := [];
        var remaining := dataCluster.Keys;
        ghost var visited: seq<string> := [];
        ghost var origins: seq<(string, string)> := [];
        ghost var done: set<(string, string)> := {};
        while remaining != {}
          invariant remaining <= dataCluster.Keys
          invariant forall id :: id in visited <==> id in dataCluster && id !in remaining
          invariant forall i, j | 0 <= i < j < |visited| :: visited[i] != visited[j]
          invariant d == PathNameOnlyData(lib, dataCluster, visited)
          invariant ListsPathsOf(lib, dataCluster, origins, fs, done)
          invariant forall e :: e in done <==> e in FileEntries(dataCluster) && e.0 in visited
          invariant FollowsOrder(origins, visited)
          decreases remaining
        {
          var id :| id in remaining;
          PathNameOnlyStep(lib, dataCluster, visited, id);
          forall k | 0 <= k < |origins| ensures origins[k].0 != id {
            assert origins[k] in done;
          }
          FollowsOrderVisit(origins, visited, id);
          d, fs, origins, done := WritePathNameOnly(visited + [id], dataCluster[id], d, fs, origins, done);
          remaining := remaining - {id};
          visited := visited + [id];
        }
        assert done == FileEntries(dataCluster);
        assert ListsFilePaths(lib, dataCluster, origins, fs);
        assert IsEnumeration(visited, dataCluster) && d == PathNameOnlyData(lib, dataCluster, visited);
        FilePathsOnePerEntry(lib, dataCluster, origins, fs);
        PathNameOnlyKeys(lib, dataCluster, visited);
        dat, files := Some(d), Some(fs);
      }
    }

    /**
     * The loop of GetAllDataFilePathNameOnly over the form visited last in `order`:
     * writes every entry into `dat`, a file object as its map form, and appends the
     * path of each file object to `files`. The ghost `origins` and `done` record which
     * file entries the paths listed so far belong to.
     */
    method WritePathNameOnly(ghost order: seq<string>, formDataMap: MapIO, dat: map<string, Value>, files: seq<string>,
                             ghost origins: seq<(string, string)>, ghost done: set<(string, string)>)
      returns (dat': map<string, Value>, files': seq<string>, ghost origins': seq<(string, string)>, ghost done': set<(string, string)>)
      requires |order| > 0 && order[|order| - 1] in dataCluster && formDataMap == dataCluster[order[|order| - 1]]
      requires forall p, q | 0 <= p < q < |order| :: order[p] != order[q]
      requires ListsPathsOf(lib, dataCluster, origins, files, done)
      requires forall e | e in done :: e.0 != order[|order| - 1]
      requires FollowsOrder(origins, order)
      ensures dat' == dat + PathNameOnlyPart(lib, formDataMap)
      ensures |files| <= |files'| && files'[..|files|] == files
      ensures |origins| <= |origins'| && origins'[..|origins|] == origins
      ensures ListsPathsOf(lib, dataCluster, origins', files', done')
      ensures forall e :: e in done' <==> e in done || (e in FileEntries(dataCluster) && e.0 == order[|order| - 1])
      ensures FollowsOrder(origins', order)
    {
      ghost var id := order[|order| - 1];
      dat', files', origins', done' := dat, files, origins, done;
      var names := formDataMap.Keys;
      while names != {}
        invariant names <= formDataMap.Keys
        invariant forall n :: n in dat' <==> n in dat || (n in formDataMap && n !in names)
        invariant forall n | n in dat' ::
                    dat'[n] == if n in formDataMap && n !in names then PathNameOnlyValue(lib, formDataMap[n]) else dat[n]
        invariant |files| <= |files'| && files'[..|files|] == files
        invariant |origins| <= |origins'| && origins'[..|origins|] == origins
        invariant ListsPathsOf(lib, dataCluster, origins', files', done')
        invariant forall e :: e in done' <==> e in done || (e in FileEntries(dataCluster) && e.0 == id && e.1 !in names)
        invariant FollowsOrder(origins', order)
        decreases names
      {
        var name :| name in names;
        var maybeFile := formDataMap[name];
        names := names - {name};
        if maybeFile.File? {
          var fileInfo := maybeFile.io;
          ListOneMorePath(lib, dataCluster, origins', files', done', (id, name));
          FollowsOrderAppend(origins', order, (id, name));
          files' := files' + [lib.path(fileInfo)];
          origins', done' := origins' + [(id, name)], done' + {(id, name)};
          dat' := dat'[name := Object(lib.toMap(fileInfo))];
          continue;
        }
        dat' := dat'[name := maybeFile];
      }
      OverlayPointwise(dat', dat, PathNameOnlyPart(lib, formDataMap));
    }
  }
}

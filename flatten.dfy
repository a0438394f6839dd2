/**
 * What the flatteners of the form data manager (GetAllData, GetAllDataFile and
 * GetAllDataFilePathNameOnly) compute, as functions of the table and of the order in
 * which Go's map iteration visits the forms. Go leaves that order unspecified, so
 * every statement about a result is either made for an arbitrary enumeration of the
 * form IDs or shown not to depend on it.
 */
module Flatten {
  import opened File

  /** `DataManager.DataCluster`: form ID to the data of that form. */
  type Cluster = map<string, MapIO>

  /** `order` visits every form of `c` exactly once: one possible iteration order of the map. */
  ghost predicate IsEnumeration(order: seq<string>, c: Cluster) {
    && (forall i, j | 0 <= i < j < |order| :: order[i] != order[j])
    && (forall id :: id in order <==> id in c)
  }

  /** No field name occurs in two different forms. */
  ghost predicate FieldsDisjoint(c: Cluster) {
    forall id1, id2, n | id1 in c && id2 in c && id1 != id2 && n in c[id1] :: n !in c[id2]
  }

  /** The data of form `id`, or no data at all when there is no such form. */
  function FormAt(c: Cluster, id: string): MapIO {
    if id in c then c[id] else map[]
  }

  // ---------------------------------------------------------------------------------
  // Writing maps one after the other

  /**
   * The map obtained by writing every entry of `parts[0]`, then every entry of
   * `parts[1]`, and so on: a later write of a name replaces an earlier one.
   */
  function Overlay<V>(parts: seq<map<string, V>>): (r: map<string, V>)
    ensures forall n :: n in r <==> exists i :: 0 <= i < |parts| && n in parts[i]
  {
    if parts == [] then map[]
    else
      var k := |parts| - 1;
      assert forall i | 0 <= i < k :: parts[..k][i] == parts[i];
      Overlay(parts[..k]) + parts[k]
  }

  /** The value of a name in an overlay is its value in the last part that holds it. */
  lemma {:induction false} OverlayLastWins<V>(parts: seq<map<string, V>>, i: nat, n: string)
    requires i < |parts| && n in parts[i]
    requires forall j | i < j < |parts| :: n !in parts[j]
    ensures n in Overlay(parts) && Overlay(parts)[n] == parts[i][n]
  {
    var k := |parts| - 1;
    var prefix := parts[..k];
    if i < k {
      assert prefix[i] == parts[i];
      forall j | i < j < k ensures n !in prefix[j] {
        assert prefix[j] == parts[j];
      }
      OverlayLastWins(prefix, i, n);
      assert n !in parts[k];
    }
  }

  /** A map that agrees with `before + part` on every name is `before + part`. */
  lemma OverlayPointwise<V>(d: map<string, V>, before: map<string, V>, part: map<string, V>)
    requires forall n :: n in d <==> n in before || n in part
    requires forall n | n in d :: d[n] == if n in part then part[n] else before[n]
    ensures d == before + part
  {
    assert d.Keys == (before + part).Keys;
  }

  /** Overlaying one more part writes its entries over what was there. */
  lemma OverlaySnoc<V>(parts: seq<map<string, V>>, p: map<string, V>)
    ensures Overlay(parts + [p]) == Overlay(parts) + p
  {
    assert (parts + [p])[..|parts|] == parts;
  }

  /**
   * The keys of an overlay of one part per visited form, when the part of each form
   * holds exactly those names of the form that `keep` selects: the names some form
   * holds and `keep` selects.
   */
  lemma OverlayOfFormsKeys<V>(c: Cluster, order: seq<string>, parts: seq<map<string, V>>, keep: (string, string) -> bool)
    requires IsEnumeration(order, c) && |parts| == |order|
    requires forall i, n | 0 <= i < |parts| :: n in parts[i] <==> n in c[order[i]] && keep(order[i], n)
    ensures forall n :: n in Overlay(parts) <==> exists id :: id in c && n in c[id] && keep(id, n)
  {
    forall n ensures n in Overlay(parts) <==> exists id :: id in c && n in c[id] && keep(id, n) {
      if n in Overlay(parts) {
        var i :| 0 <= i < |parts| && n in parts[i];
        assert order[i] in c && n in c[order[i]] && keep(order[i], n);
      }
      if exists id :: id in c && n in c[id] && keep(id, n) {
        var id :| id in c && n in c[id] && keep(id, n);
        var i :| 0 <= i < |order| && order[i] == id;
        assert n in parts[i];
      }
    }
  }

  // ---------------------------------------------------------------------------------
  // GetAllData

  /**
   * How GetAllData copies one value: a file object as it is, a map that describes a
   * file as the file object built from it, and anything else (nil included) unchanged.
   */
  function Resolved(lib: FileLib, base: string, v: Value): Value {
    match v
    case File(_) => v
    case Object(m) => if lib.isFileInfo(m) then File(lib.fromMap(base, m)) else v
    case _ => v
  }

  /** What the inner loop of GetAllData writes for one form. */
  function AllDataPart(lib: FileLib, base: string, form: MapIO): map<string, Value> {
    map n | n in form :: Resolved(lib, base, form[n])
  }

  function AllDataParts(lib: FileLib, base: string, c: Cluster, order: seq<string>): seq<map<string, Value>> {
    seq(|order|, i requires 0 <= i < |order| => AllDataPart(lib, base, FormAt(c, order[i])))
  }

  /** The `dat` map GetAllData builds when it visits the forms in `order`. */
  function AllData(lib: FileLib, base: string, c: Cluster, order: seq<string>): map<string, Value> {
    Overlay(AllDataParts(lib, base, c, order))
  }

  /** Visiting one more form writes that form's part over the result so far. */
  lemma AllDataStep(lib: FileLib, base: string, c: Cluster, visited: seq<string>, id: string)
    requires id in c
    ensures AllData(lib, base, c, visited + [id]) == AllData(lib, base, c, visited) + AllDataPart(lib, base, c[id])
  {
    var parts := AllDataParts(lib, base, c, visited);
    assert AllDataParts(lib, base, c, visited + [id]) == parts + [AllDataPart(lib, base, c[id])];
    OverlaySnoc(parts, AllDataPart(lib, base, c[id]));
  }

  /** Every field name of every form, and nothing else, is a key of GetAllData's result. */
  lemma AllDataKeys(lib: FileLib, base: string, c: Cluster, order: seq<string>)
    requires IsEnumeration(order, c)
    ensures forall n :: n in AllData(lib, base, c, order) <==> exists id :: id in c && n in c[id]
  {
    OverlayOfFormsKeys(c, order, AllDataParts(lib, base, c, order), (id, n) => true);
  }

  /** A name takes its value from the last form, in visiting order, that holds it. */
  lemma AllDataFromLastForm(lib: FileLib, base: string, c: Cluster, order: seq<string>, i: nat, n: string)
    requires IsEnumeration(order, c)
    requires i < |order| && n in c[order[i]]
    requires forall j | i < j < |order| :: n !in c[order[j]]
    ensures n in AllData(lib, base, c, order)
    ensures AllData(lib, base, c, order)[n] == Resolved(lib, base, c[order[i]][n])
  {
    var parts := AllDataParts(lib, base, c, order);
    forall j | i < j < |parts| ensures n !in parts[j] {
      assert order[j] in c;
    }
    OverlayLastWins(parts, i, n);
  }

  /** When no two forms share a field name, each name takes its value from the form that holds it. */
  lemma AllDataOfDisjoint(lib: FileLib, base: string, c: Cluster, order: seq<string>, id: string, n: string)
    requires IsEnumeration(order, c) && FieldsDisjoint(c)
    requires id in c && n in c[id]
    ensures n in AllData(lib, base, c, order)
    ensures AllData(lib, base, c, order)[n] == Resolved(lib, base, c[id][n])
  {
    var i :| 0 <= i < |order| && order[i] == id;
    forall j | i < j < |order| ensures n !in c[order[j]] {
      assert order[j] in c && order[j] != id;
    }
    AllDataFromLastForm(lib, base, c, order, i, n);
  }

  /** When no two forms share a field name, GetAllData's result does not depend on the visiting order. */
  lemma AllDataOrderIndependent(lib: FileLib, base: string, c: Cluster, order1: seq<string>, order2: seq<string>)
    requires IsEnumeration(order1, c) && IsEnumeration(order2, c) && FieldsDisjoint(c)
    ensures AllData(lib, base, c, order1) == AllData(lib, base, c, order2)
  {
    var d1, d2 := AllData(lib, base, c, order1), AllData(lib, base, c, order2);
    forall n | n in d1 || n in d2 ensures n in d1 && n in d2 && d1[n] == d2[n] {
      AllDataKeys(lib, base, c, order1);
      AllDataKeys(lib, base, c, order2);
      var id :| id in c && n in c[id];
      AllDataOfDisjoint(lib, base, c, order1, id, n);
      AllDataOfDisjoint(lib, base, c, order2, id, n);
    }
    assert d1.Keys == d2.Keys;
  }

  // ---------------------------------------------------------------------------------
  // GetAllDataFile

  /** The entries of a form whose value is a file object, as `files` receives them. */
  function FilePart(form: MapIO): map<string, FileHandle> {
    map n | n in form && form[n].File? :: form[n].io
  }

  /** The entries of a form whose value is not a file object, as `dat` receives them. */
  function NonFilePart(form: MapIO): map<string, Value> {
    map n | n in form && !form[n].File? :: form[n]
  }

  /**
   * Within one form every entry goes to exactly one of `files` and `dat`: a direct
   * consequence of the complementary guards of FilePart and NonFilePart, stated so
   * the split the inner loop of GetAllDataFile makes is on record.
   */
  lemma FormSplit(form: MapIO)
    ensures FilePart(form).Keys !! NonFilePart(form).Keys
    ensures FilePart(form).Keys + NonFilePart(form).Keys == form.Keys
  {
  }

  function FileParts(c: Cluster, order: seq<string>): seq<map<string, FileHandle>> {
    seq(|order|, i requires 0 <= i < |order| => FilePart(FormAt(c, order[i])))
  }

  function NonFileParts(c: Cluster, order: seq<string>): seq<map<string, Value>> {
    seq(|order|, i requires 0 <= i < |order| => NonFilePart(FormAt(c, order[i])))
  }

  /** The `files` map GetAllDataFile builds when it visits the forms in `order`. */
  function AllFiles(c: Cluster, order: seq<string>): map<string, FileHandle> {
    Overlay(FileParts(c, order))
  }

  /** The `dat` map GetAllDataFile builds when it visits the forms in `order`. */
  function AllNonFiles(c: Cluster, order: seq<string>): map<string, Value> {
    Overlay(NonFileParts(c, order))
  }

  /** Visiting one more form adds that form's file entries to `files` and its other entries to `dat`. */
  lemma AllDataFileStep(c: Cluster, visited: seq<string>, id: string)
    requires id in c
    ensures AllFiles(c, visited + [id]) == AllFiles(c, visited) + FilePart(c[id])
    ensures AllNonFiles(c, visited + [id]) == AllNonFiles(c, visited) + NonFilePart(c[id])
  {
    assert FileParts(c, visited + [id]) == FileParts(c, visited) + [FilePart(c[id])];
    OverlaySnoc(FileParts(c, visited), FilePart(c[id]));
    assert NonFileParts(c, visited + [id]) == NonFileParts(c, visited) + [NonFilePart(c[id])];
    OverlaySnoc(NonFileParts(c, visited), NonFilePart(c[id]));
  }

  /**
   * A name is in `files` exactly when some form holds a file object under it, and in
   * `dat` exactly when some form holds anything else under it; so every field name of
   * every form is in one of them.
   */
  lemma AllDataFilePartition(c: Cluster, order: seq<string>)
    requires IsEnumeration(order, c)
    ensures forall n :: n in AllFiles(c, order) <==> exists id :: id in c && n in c[id] && c[id][n].File?
    ensures forall n :: n in AllNonFiles(c, order) <==> exists id :: id in c && n in c[id] && !c[id][n].File?
    ensures forall id, n | id in c && n in c[id] :: n in AllFiles(c, order) || n in AllNonFiles(c, order)
  {
    var isFile := (id, n) => id in c && n in c[id] && c[id][n].File?;
    var isNonFile := (id, n) => id in c && n in c[id] && !c[id][n].File?;
    OverlayOfFormsKeys(c, order, FileParts(c, order), isFile);
    OverlayOfFormsKeys(c, order, NonFileParts(c, order), isNonFile);
  }

  /**
   * A name in `files` holds the file object of the last form, in visiting order, that
   * has a file object under that name; forms holding a non-file value there do not
   * overwrite it.
   */
  lemma AllFilesFromLastFileForm(c: Cluster, order: seq<string>, i: nat, n: string)
    requires IsEnumeration(order, c)
    requires i < |order| && n in c[order[i]] && c[order[i]][n].File?
    requires forall j | i < j < |order| :: !(n in c[order[j]] && c[order[j]][n].File?)
    ensures n in AllFiles(c, order) && AllFiles(c, order)[n] == c[order[i]][n].io
  {
    var parts := FileParts(c, order);
    forall j | i < j < |parts| ensures n !in parts[j] {
      assert order[j] in c;
    }
    OverlayLastWins(parts, i, n);
  }

  /**
   * A name in `dat` holds the value of the last form, in visiting order, that has a
   * non-file value under that name; forms holding a file object there do not
   * overwrite it.
   */
  lemma AllNonFilesFromLastForm(c: Cluster, order: seq<string>, i: nat, n: string)
    requires IsEnumeration(order, c)
    requires i < |order| && n in c[order[i]] && !c[order[i]][n].File?
    requires forall j | i < j < |order| :: !(n in c[order[j]] && !c[order[j]][n].File?)
    ensures n in AllNonFiles(c, order) && AllNonFiles(c, order)[n] == c[order[i]][n]
  {
    var parts := NonFileParts(c, order);
    forall j | i < j < |parts| ensures n !in parts[j] {
      assert order[j] in c;
    }
    OverlayLastWins(parts, i, n);
  }

  // ---------------------------------------------------------------------------------
  // GetAllDataFilePathNameOnly

  /** How GetAllDataFilePathNameOnly copies one value: a file object as its map form, anything else unchanged. */
  function PathNameOnlyValue(lib: FileLib, v: Value): Value {
    if v.File? then Object(lib.toMap(v.io)) else v
  }

  function PathNameOnlyPart(lib: FileLib, form: MapIO): map<string, Value> {
    map n | n in form :: PathNameOnlyValue(lib, form[n])
  }

  function PathNameOnlyParts(lib: FileLib, c: Cluster, order: seq<string>): seq<map<string, Value>> {
    seq(|order|, i requires 0 <= i < |order| => PathNameOnlyPart(lib, FormAt(c, order[i])))
  }

  /** The `dat` map GetAllDataFilePathNameOnly builds when it visits the forms in `order`. */
  function PathNameOnlyData(lib: FileLib, c: Cluster, order: seq<string>): map<string, Value> {
    Overlay(PathNameOnlyParts(lib, c, order))
  }

  /** Visiting one more form writes that form's part over the path-name-only `dat` so far. */
  lemma PathNameOnlyStep(lib: FileLib, c: Cluster, visited: seq<string>, id: string)
    requires id in c
    ensures PathNameOnlyData(lib, c, visited + [id]) == PathNameOnlyData(lib, c, visited) + PathNameOnlyPart(lib, c[id])
  {
    var parts := PathNameOnlyParts(lib, c, visited);
    assert PathNameOnlyParts(lib, c, visited + [id]) == parts + [PathNameOnlyPart(lib, c[id])];
    OverlaySnoc(parts, PathNameOnlyPart(lib, c[id]));
  }

  /** Every field name of every form, and nothing else, is a key of the path-name-only `dat`. */
  lemma PathNameOnlyKeys(lib: FileLib, c: Cluster, order: seq<string>)
    requires IsEnumeration(order, c)
    ensures forall n :: n in PathNameOnlyData(lib, c, order) <==> exists id :: id in c && n in c[id]
  {
    OverlayOfFormsKeys(c, order, PathNameOnlyParts(lib, c, order), (id, n) => true);
  }

  /**
   * A name takes its value from the last form, in visiting order, that holds it, with
   * a file object replaced by its map form.
   */
  lemma PathNameOnlyFromLastForm(lib: FileLib, c: Cluster, order: seq<string>, i: nat, n: string)
    requires IsEnumeration(order, c)
    requires i < |order| && n in c[order[i]]
    requires forall j | i < j < |order| :: n !in c[order[j]]
    ensures n in PathNameOnlyData(lib, c, order)
    ensures PathNameOnlyData(lib, c, order)[n] == PathNameOnlyValue(lib, c[order[i]][n])
  {
    var parts := PathNameOnlyParts(lib, c, order);
    forall j | i < j < |parts| ensures n !in parts[j] {
      assert order[j] in c;
    }
    OverlayLastWins(parts, i, n);
  }

  /** The (form ID, field name) pairs whose value is a file object. */
  ghost function FileEntries(c: Cluster): set<(string, string)> {
    set id, n | id in c && n in c[id] && c[id][n].File? :: (id, n)
  }

  /** The file object stored at a file entry. */
  ghost function EntryFile(c: Cluster, e: (string, string)): FileHandle
    requires e in FileEntries(c)
  {
    c[e.0][e.1].io
  }

  /**
   * `paths` lists the paths of the file entries in `done`, each once: `origins` is the
   * order in which those entries were visited, without repetition, and `paths[k]` is
   * the path of the file object at `origins[k]`.
   */
  ghost predicate ListsPathsOf(lib: FileLib, c: Cluster, origins: seq<(string, string)>, paths: seq<string>, done: set<(string, string)>) {
    && |origins| == |paths|
    && (forall i, j | 0 <= i < j < |origins| :: origins[i] != origins[j])
    && (forall e :: e in origins <==> e in done)
    && (forall k | 0 <= k < |origins| :: origins[k] in FileEntries(c) && paths[k] == lib.path(EntryFile(c, origins[k])))
  }

  /** `paths` lists the path of every file entry across all forms once. */
  ghost predicate ListsFilePaths(lib: FileLib, c: Cluster, origins: seq<(string, string)>, paths: seq<string>) {
    ListsPathsOf(lib, c, origins, paths, FileEntries(c))
  }

  /** Appending the path of one more file entry keeps the listing exact. */
  lemma ListOneMorePath(lib: FileLib, c: Cluster, origins: seq<(string, string)>, paths: seq<string>, done: set<(string, string)>, e: (string, string))
    requires ListsPathsOf(lib, c, origins, paths, done)
    requires e in FileEntries(c) && e !in done
    ensures ListsPathsOf(lib, c, origins + [e], paths + [lib.path(EntryFile(c, e))], done + {e})
  {
  }

  /**
   * The entries in `origins` come form by form in the order `order` visits the forms:
   * no entry of a later form precedes an entry of an earlier one, because the loop
   * finishes one form before it starts the next.
   */
  ghost predicate FollowsOrder(origins: seq<(string, string)>, order: seq<string>) {
    forall i, j, p, q | 0 <= i < j < |origins| && 0 <= p < q < |order| ::
      !(origins[i].0 == order[q] && origins[j].0 == order[p])
  }

  /** Visiting a form none of whose entries is listed yet keeps the listing in visiting order. */
  lemma FollowsOrderVisit(origins: seq<(string, string)>, visited: seq<string>, id: string)
    requires FollowsOrder(origins, visited)
    requires forall k | 0 <= k < |origins| :: origins[k].0 != id
    ensures FollowsOrder(origins, visited + [id])
  {
    var order := visited + [id];
    forall i, j, p, q | 0 <= i < j < |origins| && 0 <= p < q < |order|
      ensures !(origins[i].0 == order[q] && origins[j].0 == order[p])
    {
      if q < |visited| {
        assert order[p] == visited[p] && order[q] == visited[q];
      }
    }
  }

  /** Listing one more entry of the form visited last keeps the listing in visiting order. */
  lemma FollowsOrderAppend(origins: seq<(string, string)>, order: seq<string>, e: (string, string))
    requires FollowsOrder(origins, order)
    requires forall p, q | 0 <= p < q < |order| :: order[p] != order[q]
    requires |order| > 0 && e.0 == order[|order| - 1]
    ensures FollowsOrder(origins + [e], order)
  {
    var o := origins + [e];
    forall i, j, p, q | 0 <= i < j < |o| && 0 <= p < q < |order|
      ensures !(o[i].0 == order[q] && o[j].0 == order[p])
    {
      if j < |origins| {
        assert o[i] == origins[i] && o[j] == origins[j];
      } else {
        assert o[j] == e;
      }
    }
  }

  /** A sequence without repetitions has as many elements as the set of its elements. */
  lemma {:induction false} DistinctCardinality<T>(s: seq<T>)
    requires forall i, j | 0 <= i < j < |s| :: s[i] != s[j]
    ensures |set x | x in s| == |s|
  {
    if s != [] {
      var t := s[1..];
      DistinctCardinality(t);
      assert (set x | x in s) == (set x | x in t) + {s[0]};
      assert s[0] !in t;
    }
  }

  /**
   * A list of file paths as described by `ListsFilePaths` has one element per file
   * entry across all forms, and holds the path of every one of them.
   */
  lemma FilePathsOnePerEntry(lib: FileLib, c: Cluster, origins: seq<(string, string)>, paths: seq<string>)
    requires ListsFilePaths(lib, c, origins, paths)
    ensures |paths| == |FileEntries(c)|
    ensures forall e | e in FileEntries(c) :: lib.path(EntryFile(c, e)) in paths
  {
    DistinctCardinality(origins);
    assert (set x | x in origins) == FileEntries(c);
    forall e | e in FileEntries(c) ensures lib.path(EntryFile(c, e)) in paths {
      var k :| 0 <= k < |origins| && origins[k] == e;
      assert paths[k] == lib.path(EntryFile(c, e));
    }
  }
}

/**
 * The reconciliation rules of the file-search setup script
 * (`file_search/setup_file_search.py`): which markdown files to upload, which
 * uploads can be skipped because a file of that name already exists, whether
 * the vector store must be created, and which files still have to be added to
 * it. The OpenAI client is replaced by what its calls return: listings come in
 * as sequences, and the ids the server assigns come from oracles.
 */
module FileSearchSetup {
  import opened Wrappers

  // ---------------------------------------------------------------------------
  // Order-preserving filtering, used for the three filters of the script.

  /** The elements of `s` that `keep` accepts, in their order in `s`. */
  function Filter<T(!new)>(s: seq<T>, keep: T -> bool): (r: seq<T>)
    ensures |r| <= |s|
    decreases |s|
  {
    if s == [] then []
    else Filter(s[..|s| - 1], keep) + if keep(s[|s| - 1]) then [s[|s| - 1]] else []
  }

  /** The filter keeps exactly the accepted elements. */
  lemma {:induction false} FilterMembers<T(!new)>(s: seq<T>, keep: T -> bool)
    ensures forall x :: x in Filter(s, keep) <==> x in s && keep(x)
    decreases |s|
  {
    if s != [] {
      var init := s[..|s| - 1];
      FilterMembers(init, keep);
      assert s == init + [s[|s| - 1]];
    }
  }

  /** Filtering a concatenation filters each part and keeps the parts in order. */
  lemma {:induction false} FilterAppend<T(!new)>(a: seq<T>, b: seq<T>, keep: T -> bool)
    ensures Filter(a + b, keep) == Filter(a, keep) + Filter(b, keep)
    decreases |b|
  {
    if b == [] {
      assert a + b == a;
    } else {
      var b' := b[..|b| - 1];
      assert (a + b)[..|a + b| - 1] == a + b';
      assert (a + b)[|a + b| - 1] == b[|b| - 1];
      FilterAppend(a, b', keep);
    }
  }

  /** When `keep` accepts everything, filtering changes nothing. */
  lemma {:induction false} FilterKeepsAll<T(!new)>(s: seq<T>, keep: T -> bool)
    requires forall i :: 0 <= i < |s| ==> keep(s[i])
    ensures Filter(s, keep) == s
    decreases |s|
  {
    if s != [] {
      var init := s[..|s| - 1];
      assert forall i :: 0 <= i < |init| ==> init[i] == s[i];
      FilterKeepsAll(init, keep);
      assert keep(s[|s| - 1]);
      assert init + [s[|s| - 1]] == s;
    }
  }

  /** An accepted element at index `i` is counted among those before any later index `j`. */
  lemma FilterCountGrows<T(!new)>(s: seq<T>, keep: T -> bool, i: nat, j: nat)
    requires i < j <= |s| && keep(s[i])
    ensures |Filter(s[..i], keep)| < |Filter(s[..j], keep)|
  {
    assert s[..j] == s[..i] + s[i..j];
    FilterAppend(s[..i], s[i..j], keep);
    FilterMembers(s[i..j], keep);
    assert s[i] in s[i..j];
  }

  // ---------------------------------------------------------------------------
  // Listing what already exists (lines 48-75).

  /** One entry of a listing: a file's `filename` and `id`, or a vector store's `name` and `id`. */
  datatype Listed = Listed(name: string, id: string)

  /** The value of `key` in `m`, if any. */
  function Get(m: map<string, string>, key: string): Option<string> {
    if key in m then Some(m[key]) else None
  }

  /** The id of the last entry called `name`, if any. */
  function LastId(entries: seq<Listed>, name: string): Option<string>
    decreases |entries|
  {
    if entries == [] then None
    else if entries[|entries| - 1].name == name then Some(entries[|entries| - 1].id)
    else LastId(entries[..|entries| - 1], name)
  }

  /** Entry `i` is the last one called `name`. */
  predicate IsLastNamed(entries: seq<Listed>, i: int, name: string) {
    0 <= i < |entries| && entries[i].name == name && forall j :: i < j < |entries| ==> entries[j].name != name
  }

  /** `LastId` finds the id of the last entry with the name, and nothing when no entry has it. */
  lemma {:induction false} LastIdIsLastOccurrence(entries: seq<Listed>, name: string)
    ensures LastId(entries, name).None? <==> forall i :: 0 <= i < |entries| ==> entries[i].name != name
    ensures forall i :: IsLastNamed(entries, i, name) ==> LastId(entries, name) == Some(entries[i].id)
    decreases |entries|
  {
    if entries != [] {
      var init := entries[..|entries| - 1];
      LastIdIsLastOccurrence(init, name);
      forall i | IsLastNamed(entries, i, name) ensures LastId(entries, name) == Some(entries[i].id) {
        if i < |entries| - 1 {
          assert IsLastNamed(init, i, name);
        }
      }
      if entries[|entries| - 1].name != name {
        assert forall i :: 0 <= i < |init| ==> init[i] == entries[i];
      }
    }
  }

  /** A name-to-id dictionary built by assigning entry after entry. */
  method IndexByName(entries: seq<Listed>) returns (index: map<string, string>)
    ensures forall name :: Get(index, name) == LastId(entries, name)
  {
    index := map[];
    for i := 0 to |entries|
      invariant forall name :: Get(index, name) == LastId(entries[..i], name)
    {
      assert entries[..i + 1][..i] == entries[..i];
      index := index[entries[i].name := entries[i].id];
    }
    assert entries[..|entries|] == entries;
  }

  /** `list_existing_files`: filename to id; a later file with the same name wins. */
  method ListExistingFiles(files: seq<Listed>) returns (existing: map<string, string>)
    ensures forall name :: Get(existing, name) == LastId(files, name)
  {
    existing := IndexByName(files);
  }

  /** `list_existing_vector_stores`: store name to id; a later store with the same name wins. */
  method ListExistingVectorStores(stores: seq<Listed>) returns (existing: map<string, string>)
    ensures forall name :: Get(existing, name) == LastId(stores, name)
  {
    existing := IndexByName(stores);
  }

  // ---------------------------------------------------------------------------
  // Choosing and uploading files (lines 78-113).

  /** `Path(path).name`: what follows the last `/`. */
  function Basename(path: string): string
    decreases |path|
  {
    if path == [] || path[|path| - 1] == '/' then ""
    else Basename(path[..|path| - 1]) + [path[|path| - 1]]
  }

  /** The name is the longest suffix of the path without a `/`. */
  lemma {:induction false} BasenameIsLastComponent(path: string)
    ensures var name := Basename(path);
      && '/' !in name
      && |name| <= |path| && name == path[|path| - |name|..]
      && (|name| < |path| ==> path[|path| - |name| - 1] == '/')
    decreases |path|
  {
    if path != [] && path[|path| - 1] != '/' {
      var init := path[..|path| - 1];
      BasenameIsLastComponent(init);
      var name := Basename(init);
      assert path[|path| - |name| - 1..] == init[|init| - |name|..] + [path[|path| - 1]];
    }
  }

  /** Pages that are never uploaded. */
  const Skipped: set<string> := {"chat.md", "_index.md"}

  predicate IsUploadCandidate(path: string) {
    Basename(path) !in Skipped
  }

  /**
   * `get_files_to_upload`, given the markdown paths the recursive glob enumerates: every path
   * whose file name is not skipped, in enumeration order.
   */
  method GetFilesToUpload(enumerated: seq<string>) returns (files: seq<string>)
    ensures files == Filter(enumerated, IsUploadCandidate)
    ensures forall p :: p in files <==> p in enumerated && Basename(p) !in Skipped
  {
    files := [];
    for i := 0 to |enumerated|
      invariant files == Filter(enumerated[..i], IsUploadCandidate)
    {
      assert enumerated[..i + 1][..i] == enumerated[..i];
      if Basename(enumerated[i]) !in Skipped {
        files := files + [enumerated[i]];
      }
    }
    assert enumerated[..|enumerated|] == enumerated;
    FilterMembers(enumerated, IsUploadCandidate);
  }

  /** A path whose file name is not among the existing files' names. */
  function NotUploaded(existing: map<string, string>): string -> bool {
    path => Basename(path) !in existing
  }

  /** `mint(k)` is the id the server gives the `k`-th upload (from 0). */
  ghost predicate Injective(mint: nat -> string) {
    forall a, b :: a != b ==> mint(a) != mint(b)
  }

  /**
   * The id `upload_files` records for `files[i]`: the existing file's id when
   * the name is known, else the id of the upload made for it, which is the
   * upload numbered by how many paths before it were uploaded.
   */
  function AssignedId(files: seq<string>, existing: map<string, string>, mint: nat -> string, i: nat): string
    requires i < |files|
  {
    var name := Basename(files[i]);
    if name in existing then existing[name] else mint(|Filter(files[..i], NotUploaded(existing))|)
  }

  /** The ids `upload_files` records for `files`, in order. */
  function UploadIds(files: seq<string>, existing: map<string, string>, mint: nat -> string): (ids: seq<string>)
    ensures |ids| == |files|
    decreases |files|
  {
    if files == [] then []
    else
      var init := files[..|files| - 1];
      var name := Basename(files[|files| - 1]);
      UploadIds(init, existing, mint)
        + [if name in existing then existing[name] else mint(|Filter(init, NotUploaded(existing))|)]
  }

  /** Each recorded id is the one `AssignedId` describes. */
  lemma {:induction false} UploadIdsAssigned(files: seq<string>, existing: map<string, string>, mint: nat -> string)
    ensures forall i :: 0 <= i < |files| ==> UploadIds(files, existing, mint)[i] == AssignedId(files, existing, mint, i)
    decreases |files|
  {
    if files != [] {
      var init := files[..|files| - 1];
      UploadIdsAssigned(init, existing, mint);
      forall i | 0 <= i < |files| ensures UploadIds(files, existing, mint)[i] == AssignedId(files, existing, mint, i) {
        if i < |init| {
          assert files[..i] == init[..i];
          assert AssignedId(files, existing, mint, i) == AssignedId(init, existing, mint, i);
        }
      }
    }
  }

  /**
   * The loop of `upload_files` over the candidate paths: one id per path, in
   * order; `uploaded` lists the paths sent to `client.files.create`, one call
   * each. `existing` is not updated inside the loop.
   */
  method UploadEach(files: seq<string>, existing: map<string, string>, mint: nat -> string)
    returns (ids: seq<string>, uploaded: seq<string>)
    ensures ids == UploadIds(files, existing, mint)
    ensures uploaded == Filter(files, NotUploaded(existing))
  {
    ids, uploaded := [], [];
    for i := 0 to |files|
      invariant ids == UploadIds(files[..i], existing, mint)
      invariant uploaded == Filter(files[..i], NotUploaded(existing))
    {
      assert files[..i + 1][..i] == files[..i];
      var name := Basename(files[i]);
      assert NotUploaded(existing)(files[i]) == (name !in existing);
      if name in existing {
        ids := ids + [existing[name]];
      } else {
        ids := ids + [mint(|uploaded|)];
        uploaded := uploaded + [files[i]];
      }
    }
    assert files[..|files|] == files;
  }

  /** `upload_files`: enumerate the candidates, then upload those whose name is new. */
  method UploadFiles(enumerated: seq<string>, existing: map<string, string>, mint: nat -> string)
    returns (ids: seq<string>, uploaded: seq<string>)
    ensures var files := Filter(enumerated, IsUploadCandidate);
      ids == UploadIds(files, existing, mint) && uploaded == Filter(files, NotUploaded(existing))
  {
    var files := GetFilesToUpload(enumerated);
    ids, uploaded := UploadEach(files, existing, mint);
  }

  /**
   * Paths that need uploading get pairwise distinct ids, even when two of them
   * share a file name, since the dictionary of existing names is not updated.
   */
  lemma UploadedIdsDistinct(files: seq<string>, existing: map<string, string>, mint: nat -> string, i: nat, j: nat)
    requires Injective(mint)
    requires i < j < |files| && Basename(files[i]) !in existing && Basename(files[j]) !in existing
    ensures AssignedId(files, existing, mint, i) != AssignedId(files, existing, mint, j)
  {
    FilterCountGrows(files, NotUploaded(existing), i, j);
  }

  /**
   * Paths whose file name is already listed all record that file's id, so two
   * such paths with the same name (page bundles `a/index.md`, `b/index.md`)
   * record the same id twice.
   */
  lemma KnownNameSharesId(files: seq<string>, existing: map<string, string>, mint: nat -> string, i: nat, j: nat)
    requires i < |files| && j < |files| && Basename(files[i]) == Basename(files[j]) && Basename(files[i]) in existing
    ensures UploadIds(files, existing, mint)[i] == UploadIds(files, existing, mint)[j] == existing[Basename(files[i])]
  {
    UploadIdsAssigned(files, existing, mint);
  }

  // ---------------------------------------------------------------------------
  // The vector store and its files (lines 116-166).

  /**
   * `create_or_get_vector_store`: reuse the store of that name, or make one
   * `client.vector_stores.create` call, whose new store gets `createdId`.
   */
  method CreateOrGetVectorStore(name: string, existing: map<string, string>, createdId: string)
    returns (store: Listed, creates: nat)
    ensures store.name == name
    ensures name in existing ==> store.id == existing[name] && creates == 0
    ensures name !in existing ==> store.id == createdId && creates == 1
  {
    if name in existing {
      return Listed(name, existing[name]), 0;
    }
    store, creates := Listed(name, createdId), 1;
  }

  /**
   * `list_vector_store_files`: the ids of the store's files; `listing` is the
   * listed ids, `None` when the listing raises, which gives the empty set.
   */
  function ListVectorStoreFiles(listing: Option<seq<string>>): (ids: set<string>)
    ensures listing.None? ==> ids == {}
    ensures listing.Some? ==> forall id :: id in ids <==> id in listing.value
  {
    match listing
    case None => {}
    case Some(data) => set id | id in data
  }

  function NotIn(present: set<string>): string -> bool {
    id => id !in present
  }

  /**
   * The part of `add_files_to_vector_store` before polling: `toAdd` keeps the
   * ids not yet in the store, in order; `attached` lists the
   * `vector_stores.files.create` calls; `polls` says whether the polling loop
   * is entered. Nothing missing means no call and no polling.
   */
  method AddFilesToVectorStore(fileIds: seq<string>, listing: Option<seq<string>>)
    returns (toAdd: seq<string>, attached: seq<string>, polls: bool)
    ensures toAdd == Filter(fileIds, NotIn(ListVectorStoreFiles(listing)))
    ensures forall id :: id in toAdd <==> id in fileIds && id !in ListVectorStoreFiles(listing)
    ensures attached == toAdd
    ensures polls <==> toAdd != []
  {
    var present := ListVectorStoreFiles(listing);
    toAdd := [];
    for i := 0 to |fileIds|
      invariant toAdd == Filter(fileIds[..i], NotIn(present))
    {
      assert fileIds[..i + 1][..i] == fileIds[..i];
      if fileIds[i] !in present {
        toAdd := toAdd + [fileIds[i]];
      }
    }
    assert fileIds[..|fileIds|] == fileIds;
    FilterMembers(fileIds, NotIn(present));
    if toAdd == [] {
      return [], [], false;
    }
    attached := [];
    for i := 0 to |toAdd|
      invariant attached == toAdd[..i]
    {
      attached := attached + [toAdd[i]];
    }
    polls := true;
  }

  /** When the store's files cannot be listed, every file id is added. */
  lemma ListingFailureAddsAll(fileIds: seq<string>)
    ensures Filter(fileIds, NotIn(ListVectorStoreFiles(None))) == fileIds
  {
    FilterKeepsAll(fileIds, NotIn({}));
  }
}

/**
 * Bookmarks: named frequencies read from the first bookmarks file that
 * exists, reloaded only when that file is newer than what was loaded, and
 * filtered by an inclusive frequency range.
 *
 * The file system is a parameter: a map from path to what the path holds
 * (its modification time in seconds and its decoded JSON, or `None` when
 * it cannot be read or decoded); a path missing from the map does not exist.
 */
module Bookmarks {
  import opened Wrappers
  import opened Json

  /** A bookmark: the `name`, `frequency` and `modulation` of its JSON object, as they were there. */
  datatype Bookmark = Bookmark(name: Value, frequency: Value, modulation: Value)

  /** What the bookmarks file at one path holds. */
  datatype FileEntry = FileEntry(mtime: real, contents: Option<Value>)

  type FileSystem = map<string, FileEntry>

  /** The files looked at, in this order. */
  const FILE_LIST: seq<string> := ["/etc/openwebrx/bookmarks.json", "bookmarks.json"]

  // ---------------------------------------------------------------------------
  // A bookmark and its JSON form

  /** The bookmark constructor: an object with the three keys, or `None` where it raises. */
  function FromJson(j: Value): Option<Bookmark> {
    if j.Obj? && "name" in j.fields && "frequency" in j.fields && "modulation" in j.fields then
      Some(Bookmark(j.fields["name"], j.fields["frequency"], j.fields["modulation"]))
    else None
  }

  /** A bookmark serialised: an object with exactly its three fields. */
  function ToJson(b: Bookmark): Object {
    map["name" := b.name, "frequency" := b.frequency, "modulation" := b.modulation]
  }

  /** Serialising a bookmark and reading it back gives the same bookmark. */
  lemma FromToJson(b: Bookmark)
    ensures FromJson(Obj(ToJson(b))) == Some(b)
  {
  }

  /**
   * Reading an object and serialising the bookmark keeps exactly the three
   * fields of the object, and the constructor fails exactly when one of
   * them is missing or the value is no object.
   */
  lemma ToFromJson(j: Value)
    ensures FromJson(j).Some? <==> j.Obj? && "name" in j.fields && "frequency" in j.fields && "modulation" in j.fields
    ensures FromJson(j).Some? ==>
      var r := ToJson(FromJson(j).value);
      r.Keys == {"name", "frequency", "modulation"} && forall k :: k in r ==> r[k] == j.fields[k]
  {
  }

  /**
   * The bookmarks of a decoded file: one per element of a list, in order.
   * Any element the constructor rejects, and any value that is not a list,
   * yields no bookmarks (iterating over an empty object or string also
   * yields none).
   */
  function BookmarksOf(v: Value): seq<Bookmark> {
    if v.Arr? && forall i :: 0 <= i < |v.items| ==> FromJson(v.items[i]).Some? then
      seq(|v.items|, i requires 0 <= i < |v.items| => FromJson(v.items[i]).value)
    else []
  }

  /** A list of serialised bookmarks reads back as those bookmarks. */
  lemma BookmarksRoundTrip(bs: seq<Bookmark>)
    ensures BookmarksOf(Arr(seq(|bs|, i requires 0 <= i < |bs| => Obj(ToJson(bs[i]))))) == bs
  {
    var v := Arr(seq(|bs|, i requires 0 <= i < |bs| => Obj(ToJson(bs[i]))));
    forall i | 0 <= i < |bs| ensures FromJson(v.items[i]) == Some(bs[i]) {
      FromToJson(bs[i]);
    }
  }

  // ---------------------------------------------------------------------------
  // The files

  /** The first of `files` that exists. */
  function FirstExisting(fs: FileSystem, files: seq<string>): (r: Option<nat>)
    ensures r.Some? ==> r.value < |files| && files[r.value] in fs
    ensures forall i :: 0 <= i < |files| && (r.None? || i < r.value) ==> files[i] !in fs
  {
    if files == [] then None
    else if files[0] in fs then Some(0)
    else match FirstExisting(fs, files[1..])
      case None => None
      case Some(i) => Some(i + 1)
  }

  /** The modification time of the first existing file, or 0 (the epoch) when there is none. */
  function ModifiedTime(fs: FileSystem, files: seq<string>): real {
    match FirstExisting(fs, files)
    case None => 0.0
    case Some(i) => fs[files[i]].mtime
  }

  /** The bookmarks of the first existing file; none when no file exists or the first one fails to read or decode. */
  function Loaded(fs: FileSystem, files: seq<string>): seq<Bookmark> {
    match FirstExisting(fs, files)
    case None => []
    case Some(i) =>
      match fs[files[i]].contents
      case None => []
      case Some(v) => BookmarksOf(v)
  }

  /**
   * Only the first existing file matters: creating or replacing a file that
   * comes after it in the list changes neither the loaded bookmarks nor the
   * modification time.
   */
  lemma LaterFileIgnored(fs: FileSystem, files: seq<string>, i: nat, j: nat, e: FileEntry)
    requires forall m, n :: 0 <= m < n < |files| ==> files[m] != files[n]
    requires i < j < |files| && files[i] in fs
    ensures Loaded(fs[files[j] := e], files) == Loaded(fs, files)
    ensures ModifiedTime(fs[files[j] := e], files) == ModifiedTime(fs, files)
  {
    var fs' := fs[files[j] := e];
    var k := FirstExisting(fs, files).value;
    var k' := FirstExisting(fs', files).value;
    assert k == k';
    assert files[k] != files[j];
  }

  /** What `_refresh` leaves: reloaded when nothing was loaded yet or the file is strictly newer, otherwise unchanged. */
  function Refreshed(fileModified: Option<real>, bookmarks: seq<Bookmark>, fs: FileSystem): (Option<real>, seq<Bookmark>) {
    var modified := ModifiedTime(fs, FILE_LIST);
    if fileModified.None? || modified > fileModified.value then (Some(modified), Loaded(fs, FILE_LIST))
    else (fileModified, bookmarks)
  }

  /** The recorded modification time never goes back, and once set it stays set. */
  lemma RefreshedMonotone(fileModified: Option<real>, bookmarks: seq<Bookmark>, fs: FileSystem)
    ensures var (m, _) := Refreshed(fileModified, bookmarks, fs);
      m.Some? && (fileModified.Some? ==> fileModified.value <= m.value)
  {
  }

  /** Refreshing twice against the same files is refreshing once. */
  lemma RefreshedIdempotent(fileModified: Option<real>, bookmarks: seq<Bookmark>, fs: FileSystem)
    ensures var (m, bs) := Refreshed(fileModified, bookmarks, fs);
      Refreshed(m, bs, fs) == (m, bs)
  {
  }

  // ---------------------------------------------------------------------------
  // The range filter

  /** The frequency compares with numbers (Python raises for any other value). */
  predicate Comparable(b: Bookmark) {
    IsNumber(b.frequency)
  }

  predicate InBand(b: Bookmark, lo: real, hi: real)
    requires Comparable(b)
  {
    lo <= NumberOf(b.frequency) <= hi
  }

  /** The bookmarks with `lo <= frequency <= hi`, in order; `None` where a comparison raises. */
  function InRange(bs: seq<Bookmark>, lo: real, hi: real): Option<seq<Bookmark>> {
    if bs == [] then Some([])
    else if !Comparable(bs[0]) then None
    else match InRange(bs[1..], lo, hi)
      case None => None
      case Some(rest) => Some(if InBand(bs[0], lo, hi) then [bs[0]] + rest else rest)
  }

  /** `a` is `b` with some elements left out, the rest in their order. */
  predicate IsSubsequence<T(==)>(a: seq<T>, b: seq<T>)
    decreases |b|
  {
    if a == [] then true
    else if b == [] then false
    else if a[0] == b[0] then IsSubsequence(a[1..], b[1..])
    else IsSubsequence(a, b[1..])
  }

  /**
   * The range filter fails exactly when some frequency is not a number;
   * otherwise it keeps, in order, exactly the bookmarks inside the range,
   * both ends included, each as often as it occurs.
   */
  lemma InRangeSpec(bs: seq<Bookmark>, lo: real, hi: real)
    ensures InRange(bs, lo, hi).None? <==> exists i :: 0 <= i < |bs| && !Comparable(bs[i])
    ensures InRange(bs, lo, hi).Some? ==>
      var r := InRange(bs, lo, hi).value;
      && IsSubsequence(r, bs)
      && (forall b :: b in r <==> b in bs && InBand(b, lo, hi))
      && (forall b :: b in bs ==> multiset(r)[b] == if InBand(b, lo, hi) then multiset(bs)[b] else 0)
  {
    InRangeFails(bs, lo, hi);
    if InRange(bs, lo, hi).Some? {
      InRangeKeeps(bs, lo, hi);
    }
  }

  lemma {:induction false} InRangeFails(bs: seq<Bookmark>, lo: real, hi: real)
    ensures InRange(bs, lo, hi).None? <==> exists i :: 0 <= i < |bs| && !Comparable(bs[i])
  {
    if bs != [] {
      var rest := bs[1..];
      InRangeFails(rest, lo, hi);
      assert forall i :: 0 <= i < |rest| ==> rest[i] == bs[i + 1];
      if Comparable(bs[0]) && InRange(rest, lo, hi).Some? {
        forall i | 0 <= i < |bs|
          ensures Comparable(bs[i])
        {
          if i > 0 {
            assert bs[i] == rest[i - 1];
          }
        }
      }
    }
  }

  lemma {:induction false} InRangeKeeps(bs: seq<Bookmark>, lo: real, hi: real)
    requires InRange(bs, lo, hi).Some?
    ensures forall b :: b in bs ==> Comparable(b)
    ensures
      var r := InRange(bs, lo, hi).value;
      && IsSubsequence(r, bs)
      && (forall b :: b in r <==> b in bs && InBand(b, lo, hi))
      && (forall b :: b in bs ==> multiset(r)[b] == if InBand(b, lo, hi) then multiset(bs)[b] else 0)
  {
    InRangeFails(bs, lo, hi);
    if bs != [] {
      var rest := bs[1..];
      InRangeKeeps(rest, lo, hi);
      assert bs == [bs[0]] + rest;
      var r' := InRange(rest, lo, hi).value;
      if InBand(bs[0], lo, hi) {
        assert ([bs[0]] + r')[1..] == r';
      } else {
        SubsequenceOfTail(r', bs);
      }
    }
  }

  /** Leaving out the head keeps a subsequence of the tail a subsequence. */
  lemma {:induction false} SubsequenceOfTail<T>(a: seq<T>, b: seq<T>)
    requires b != [] && IsSubsequence(a, b[1..])
    ensures IsSubsequence(a, b)
    decreases |b|, 0
  {
    if a != [] && a[0] == b[0] {
      SubsequenceDropHead(a, b[1..]);
    }
  }

  /** A subsequence without its first element is still a subsequence. */
  lemma {:induction false} SubsequenceDropHead<T>(a: seq<T>, b: seq<T>)
    requires a != [] && IsSubsequence(a, b)
    ensures IsSubsequence(a[1..], b)
    decreases |b|, 1
  {
    if a[1..] != [] {
      if a[0] == b[0] {
        SubsequenceOfTail(a[1..], b);
      } else {
        SubsequenceDropHead(a, b[1..]);
        SubsequenceOfTail(a[1..], b);
      }
    }
  }

  /** An empty range, `lo > hi`, keeps nothing. */
  lemma {:induction false} EmptyRange(bs: seq<Bookmark>, lo: real, hi: real)
    requires lo > hi
    ensures InRange(bs, lo, hi).Some? ==> InRange(bs, lo, hi).value == []
  {
    if bs != [] {
      EmptyRange(bs[1..], lo, hi);
    }
  }

  // ---------------------------------------------------------------------------
  // The store

  class BookmarkStore {
    var fileModified: Option<real>
    var bookmarks: seq<Bookmark>
    const fileList: seq<string>

    constructor ()
      ensures fileModified == None && bookmarks == [] && fileList == FILE_LIST
    {
      fileModified := None;
      bookmarks := [];
      fileList := FILE_LIST;
    }

    /** `_getFileModifiedTimestamp`: the modification time of the first file that exists, else 0. */
    method FileModifiedTimestamp(fs: FileSystem) returns (timestamp: real)
      ensures timestamp == ModifiedTime(fs, fileList)
    {
      timestamp := 0.0;
      var i := 0;
      while i < |fileList|
        invariant 0 <= i <= |fileList|
        invariant forall j :: 0 <= j < i ==> fileList[j] !in fs
        invariant timestamp == 0.0
      {
        var file := fileList[i];
        if file in fs {
          timestamp := fs[file].mtime;
          FirstExistingAt(fs, fileList, i);
          return;
        }
        i := i + 1;
      }
      FirstExistingNone(fs, fileList);
    }

    /** `_loadBookmarks`: the bookmarks of the first file that exists; none on any error or when no file exists. */
    method LoadBookmarks(fs: FileSystem) returns (bs: seq<Bookmark>)
      ensures bs == Loaded(fs, fileList)
    {
      var i := 0;
      while i < |fileList|
        invariant 0 <= i <= |fileList|
        invariant forall j :: 0 <= j < i ==> fileList[j] !in fs
      {
        var file := fileList[i];
        if file in fs {
          FirstExistingAt(fs, fileList, i);
          match fs[file].contents
          case None =>
            return [];
          case Some(v) =>
            bs := [];
            if v.Arr? {
              var k := 0;
              while k < |v.items|
                invariant 0 <= k <= |v.items|
                invariant forall m :: 0 <= m < k ==> FromJson(v.items[m]).Some?
                invariant bs == seq(k, m requires 0 <= m < k => FromJson(v.items[m]).value)
              {
                var b := FromJson(v.items[k]);
                if b.None? {
                  return [];
                }
                bs := bs + [b.value];
                k := k + 1;
              }
            }
            return;
        }
        i := i + 1;
      }
      FirstExistingNone(fs, fileList);
      return [];
    }

    /** `_refresh`: reloads when nothing is loaded yet or the first existing file is strictly newer. */
    method Refresh(fs: FileSystem)
      requires fileList == FILE_LIST
      modifies this
      ensures (fileModified, bookmarks) == Refreshed(old(fileModified), old(bookmarks), fs)
    {
      var modified := FileModifiedTimestamp(fs);
      if fileModified.None? || modified > fileModified.value {
        bookmarks := LoadBookmarks(fs);
        fileModified := Some(modified);
      }
    }

    /** `getBookmarks((lo, hi))`: refreshes, then the bookmarks inside the range; `None` where a comparison raises. */
    method GetBookmarks(lo: real, hi: real, fs: FileSystem) returns (r: Option<seq<Bookmark>>)
      requires fileList == FILE_LIST
      modifies this
      ensures (fileModified, bookmarks) == Refreshed(old(fileModified), old(bookmarks), fs)
      ensures r == InRange(bookmarks, lo, hi)
    {
      Refresh(fs);
      r := InRange(bookmarks, lo, hi);
    }
  }

  lemma FirstExistingAt(fs: FileSystem, files: seq<string>, i: nat)
    requires i < |files| && files[i] in fs && forall j :: 0 <= j < i ==> files[j] !in fs
    ensures FirstExisting(fs, files) == Some(i)
  {
    var r := FirstExisting(fs, files);
    assert r.Some?;
  }

  lemma FirstExistingNone(fs: FileSystem, files: seq<string>)
    requires forall j :: 0 <= j < |files| ==> files[j] !in fs
    ensures FirstExisting(fs, files) == None
  {
  }
}

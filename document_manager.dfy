/** components/DocumentManager.tsx: classifying an uploaded file by its extension, the
    upload size limit and the unit a size is shown in. */
module Documents {
  import opened Types
  import Store

  // ----- getFileType -----

  /** fileName.split('.').pop(): the text after the last '.', or the whole name. */
  function LastSegment(name: string): (r: string)
    ensures '.' !in r
    ensures |r| <= |name| && name[|name| - |r|..] == r
    ensures |r| == |name| || name[|name| - |r| - 1] == '.'
  {
    if name == [] then []
    else
      var n := |name| - 1;
      if name[n] == '.' then []
      else
        var r := LastSegment(name[..n]);
        SegmentGrows(name, r);
        r + [name[n]]
  }

  /** A name not ending in '.' has the last segment of its front, extended by its last character. */
  lemma SegmentGrows(name: string, r: string)
    requires name != [] && name[|name| - 1] != '.' && '.' !in r
    requires var front := name[..|name| - 1];
             && |r| <= |front| && front[|front| - |r|..] == r
             && (|r| == |front| || front[|front| - |r| - 1] == '.')
    ensures var seg := r + [name[|name| - 1]];
            && '.' !in seg
            && |seg| <= |name| && name[|name| - |seg|..] == seg
            && (|seg| == |name| || name[|name| - |seg| - 1] == '.')
  {
    var n := |name| - 1;
    var front, seg := name[..n], r + [name[n]];
    assert '.' !in seg by {
      assert forall c :: c in seg ==> c in r || c == name[n];
    }
    assert name[n - |r|..] == front[n - |r|..] + [name[n]];
    assert |r| < n ==> name[n - |r| - 1] == front[n - |r| - 1];
  }

  /** ASCII lower-casing; other characters are left as they are. */
  function LowerChar(c: char): (d: char)
    ensures 'A' <= c <= 'Z' ==> 'a' <= d <= 'z' && d as int == c as int + 32
    ensures !('A' <= c <= 'Z') ==> d == c
  {
    if 'A' <= c <= 'Z' then (c as int - 'A' as int + 'a' as int) as char else c
  }

  function Lower(s: string): (r: string)
    ensures |r| == |s|
    ensures forall i :: 0 <= i < |s| ==> r[i] == LowerChar(s[i])
  {
    seq(|s|, i requires 0 <= i < |s| => LowerChar(s[i]))
  }

  /** The lower-cased extension. */
  function Extension(name: string): string
  {
    Lower(LastSegment(name))
  }

  /** getFileType. */
  function GetFileType(name: string): (t: FileType)
    ensures t == Word <==> Extension(name) in {"doc", "docx"}
    ensures t == Excel <==> Extension(name) in {"xls", "xlsx"}
    ensures t == Pdf <==> Extension(name) == "pdf"
  {
    var ext := Extension(name);
    if ext == "doc" || ext == "docx" then Word
    else if ext == "xls" || ext == "xlsx" then Excel
    else if ext == "pdf" then Pdf
    else Other
  }

  /** Only the part after the last '.' decides the type. */
  lemma {:induction false} LastSegmentOfDotted(stem: string, ext: string)
    requires '.' !in ext
    ensures LastSegment(stem + "." + ext) == ext
  {
    var name := stem + "." + ext;
    if ext == [] {
      assert name[|name| - 1] == '.';
    } else {
      var n := |ext| - 1;
      assert name[..|name| - 1] == stem + "." + ext[..n];
      assert '.' !in ext[..n] by {
        assert forall c :: c in ext[..n] ==> c in ext;
      }
      LastSegmentOfDotted(stem, ext[..n]);
      assert ext == ext[..n] + [ext[n]];
    }
  }

  lemma ClassifiedByExtension(stem: string, ext: string)
    requires '.' !in ext
    ensures GetFileType(stem + "." + ext) == GetFileType(ext)
  {
    LastSegmentOfDotted(stem, ext);
    NoDotIsWhole(ext);
  }

  lemma {:induction false} NoDotIsWhole(s: string)
    requires '.' !in s
    ensures LastSegment(s) == s
  {
    if s != [] {
      var n := |s| - 1;
      assert '.' !in s[..n] by {
        assert forall c :: c in s[..n] ==> c in s;
      }
      NoDotIsWhole(s[..n]);
      assert s == s[..n] + [s[n]];
    }
  }

  lemma LowerAppend(a: string, c: char)
    ensures Lower(a + [c]) == Lower(a) + [LowerChar(c)]
  {
  }

  /** One more character either ends the segment with a '.' or extends it. */
  lemma LastSegmentSnoc(a: string, c: char)
    ensures LastSegment(a + [c]) == if c == '.' then [] else LastSegment(a) + [c]
  {
    assert (a + [c])[..|a|] == a;
  }

  /** Lower-casing commutes with taking the last segment, since '.' has no case. */
  lemma {:induction false} LastSegmentOfLower(name: string)
    ensures LastSegment(Lower(name)) == Lower(LastSegment(name))
  {
    if name != [] {
      var n := |name| - 1;
      var c := name[n];
      assert name == name[..n] + [c];
      assert Lower(name) == Lower(name[..n]) + [LowerChar(c)];
      LastSegmentSnoc(name[..n], c);
      LastSegmentSnoc(Lower(name[..n]), LowerChar(c));
      LastSegmentOfLower(name[..n]);
      if c != '.' {
        LowerAppend(LastSegment(name[..n]), c);
      }
    }
  }

  /** The classification ignores the case of the name. */
  lemma TypeIgnoresCase(name: string)
    ensures GetFileType(Lower(name)) == GetFileType(name)
  {
    calc {
      Extension(Lower(name));
      Lower(LastSegment(Lower(name)));
      { LastSegmentOfLower(name); }
      Lower(Lower(LastSegment(name)));
      { LowerIdempotent(LastSegment(name)); }
      Extension(name);
    }
    SameExtensionSameType(Lower(name), name);
  }

  lemma SameExtensionSameType(a: string, b: string)
    requires Extension(a) == Extension(b)
    ensures GetFileType(a) == GetFileType(b)
  {
  }

  lemma LowerIdempotent(s: string)
    ensures Lower(Lower(s)) == Lower(s)
  {
    forall i | 0 <= i < |s| ensures Lower(Lower(s))[i] == Lower(s)[i] {
      LowerCharIdempotent(s[i]);
    }
  }

  lemma LowerCharIdempotent(c: char)
    ensures LowerChar(LowerChar(c)) == LowerChar(c)
  {
  }

  // ----- upload size limit -----

  /** Uploads are held in browser storage, so they are limited to 2 MiB. */
  const MaxUploadBytes := 2 * 1024 * 1024

  /** The upload handler once the file is read: a file over the limit is refused and the
      documents are left alone; otherwise it is stored with the type its name gives. The
      file's content and the upload time come from the browser and are parameters. */
  method UploadFile(store: Store.AppStore, name: string, size: int, uploadDate: string, content: string,
                    freshId: string)
    returns (accepted: bool)
    requires forall x :: x in store.documents ==> x.id != freshId
    modifies store
    ensures accepted <==> size <= MaxUploadBytes
    ensures accepted ==> store.State() == old(store.State()).(documents := old(store.documents)
                                           + [DocumentItem(freshId, name, GetFileType(name), size, uploadDate, content)])
    ensures !accepted ==> store.State() == old(store.State())
  {
    if size > 2 * 1024 * 1024 {
      return false;
    }
    store.AddDocument(DocumentItem("", name, GetFileType(name), size, uploadDate, content), freshId);
    accepted := true;
  }

  // ----- formatSize -----

  datatype SizeUnit = B | KB | MB

  function UnitRank(u: SizeUnit): int
  {
    match u
    case B => 0
    case KB => 1
    case MB => 2
  }

  /** The unit formatSize shows a size in. */
  function UnitOf(bytes: int): (u: SizeUnit)
    ensures u == B <==> bytes < 1024
    ensures u == KB <==> 1024 <= bytes < 1048576
    ensures u == MB <==> bytes >= 1048576
  {
    if bytes < 1024 then B else if bytes < 1048576 then KB else MB
  }

  /** A larger size is never shown in a smaller unit. */
  lemma UnitMonotone(small: int, large: int)
    requires small <= large
    ensures UnitRank(UnitOf(small)) <= UnitRank(UnitOf(large))
  {
  }
}

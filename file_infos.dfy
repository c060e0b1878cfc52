/** File-type detection from a path's extension. */
module FileInfos {

  import opened Results
  import opened Errors

  /** Python's `s.split(sep)` for a one-character separator: the pieces
      between separators, always at least one. */
  function Split(s: string, sep: char): (parts: seq<string>)
    ensures |parts| >= 1
    ensures forall i :: 0 <= i < |parts| ==> sep !in parts[i]
  {
    if s == [] then [""]
    else
      var pieces := Split(s[..|s| - 1], sep);
      var c := s[|s| - 1];
      if c == sep then pieces + [""]
      else pieces[..|pieces| - 1] + [pieces[|pieces| - 1] + [c]]
  }

  /** `sep.join(parts)`. */
  function Join(parts: seq<string>, sep: char): string
    requires |parts| >= 1
  {
    if |parts| == 1 then parts[0] else Join(parts[..|parts| - 1], sep) + [sep] + parts[|parts| - 1]
  }

  /** Splitting loses nothing: joining the pieces gives the input back. */
  lemma {:induction false} JoinSplit(s: string, sep: char)
    ensures Join(Split(s, sep), sep) == s
  {
    if s != [] {
      var init := s[..|s| - 1];
      var c := s[|s| - 1];
      assert s == init + [c];
      var pieces := Split(init, sep);
      var parts := Split(s, sep);
      JoinSplit(init, sep);
      assert Join(pieces, sep) == init;
      var n := |pieces|;
      if c == sep {
        assert parts == pieces + [""];
        assert parts[..n] == pieces;
        assert Join(parts, sep) == Join(pieces, sep) + [sep] + "";
      } else {
        assert parts == pieces[..n - 1] + [pieces[n - 1] + [c]];
        if n == 1 {
          assert parts == [pieces[0] + [c]];
          assert Join(pieces, sep) == pieces[0];
        } else {
          assert parts[..n - 1] == pieces[..n - 1];
          assert Join(parts, sep) == Join(pieces[..n - 1], sep) + [sep] + (pieces[n - 1] + [c]);
          assert Join(pieces, sep) == Join(pieces[..n - 1], sep) + [sep] + pieces[n - 1];
        }
      }
    }
  }

  /** Without a separator the split is the whole string. */
  lemma {:induction false} SplitWithoutSeparator(s: string, sep: char)
    requires sep !in s
    ensures Split(s, sep) == [s]
  {
    if s != [] {
      var init := s[..|s| - 1];
      SplitWithoutSeparator(init, sep);
      assert s == init + [s[|s| - 1]];
    }
  }

  /** The last piece is what follows the last separator. */
  lemma {:induction false} LastPieceFollowsLastSeparator(s: string, sep: char)
    requires sep in s
    ensures var last := Split(s, sep)[|Split(s, sep)| - 1];
      |last| < |s| && s == s[..|s| - |last| - 1] + [sep] + last
  {
    var init := s[..|s| - 1];
    var c := s[|s| - 1];
    if c != sep {
      assert sep in init by {
        var k :| 0 <= k < |s| && s[k] == sep;
        assert init[k] == sep;
      }
      LastPieceFollowsLastSeparator(init, sep);
      var pieces := Split(init, sep);
      var last := pieces[|pieces| - 1];
      assert Split(s, sep)[|Split(s, sep)| - 1] == last + [c];
      assert s == init + [c];
    }
  }

  const NoTypeText: string := "Could not detect file type"

  /** `get_file_type`: a path without any "." is a ValueError; otherwise the
      type is the text after the last "." anywhere in the path. */
  function GetFileType(file: string): (r: Result<string, Raised>)
    ensures r.Err? <==> '.' !in file
    ensures r.Err? ==> r.error == Foreign("ValueError", NoTypeText)
    ensures r.Ok? ==> '.' !in r.value
    ensures r.Ok? ==> |r.value| < |file| && file == file[..|file| - |r.value| - 1] + "." + r.value
  {
    if '.' !in file then Err(Foreign("ValueError", NoTypeText))
    else
      var parts := Split(file, '.');
      LastPieceFollowsLastSeparator(file, '.');
      Ok(parts[|parts| - 1])
  }

  /** The type is exactly the text after the last "." of the path. */
  lemma {:induction false} FileTypeIsAfterLastDot(file: string, k: nat)
    requires k < |file| && file[k] == '.' && '.' !in file[k + 1..]
    ensures GetFileType(file) == Ok(file[k + 1..])
  {
    var r := GetFileType(file).value;
    var dot := |file| - |r| - 1;
    assert file[dot] == '.' by {
      assert file == file[..dot] + "." + r;
    }
    assert r == file[dot + 1..] by {
      assert file == file[..dot] + "." + r;
    }
    assert dot == k;
  }

  /** A trailing "." gives the empty type, and a "." in a directory name counts. */
  lemma GetFileTypeExamples()
    ensures GetFileType("archive.") == Ok("")
    ensures GetFileType("/a.b/c") == Ok("b/c")
    ensures GetFileType("notes.tar.gz") == Ok("gz")
  {
    FileTypeIsAfterLastDot("archive.", 7);
    assert "/a.b/c"[3..] == "b/c";
    FileTypeIsAfterLastDot("/a.b/c", 2);
    assert "notes.tar.gz"[10..] == "gz";
    FileTypeIsAfterLastDot("notes.tar.gz", 9);
  }
}

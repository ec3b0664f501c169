/**
 * The check save_upload_file applies to an uploaded video's name in
 * main_api.py, and the path it stores the upload under. Writing the file is
 * not modelled.
 */
module Upload {
  import opened Wrappers

  const UploadsDir := "uploads"

  /** Extensions accepted, compared after lower-casing. */
  const AllowedExtensions: set<string> := {".mp4", ".mov", ".avi"}

  datatype HttpError = HttpError(status: int, detail: string)

  /** The rejection of a file whose extension is not a video format. */
  const BadFormat := HttpError(400, "Định dạng file không hợp lệ.")

  /** The last index of c in s, or -1 (str.rfind). */
  function RFind(s: string, c: char): (i: int)
    ensures -1 <= i < |s|
    ensures i >= 0 ==> s[i] == c
    ensures forall j :: i < j < |s| ==> s[j] != c
  {
    if |s| == 0 then -1
    else if s[|s| - 1] == c then |s| - 1
    else RFind(s[..|s| - 1], c)
  }

  /** Some character of s[from..to] is not a dot. */
  predicate HasNonDot(s: string, from: int, to: int)
    requires 0 <= from && to <= |s|
  {
    exists k :: from <= k < to && s[k] != '.'
  }

  /**
   * os.path.splitext on a POSIX path: the extension starts at the last dot
   * after the last separator, unless the name before that dot is only dots.
   * A non-empty extension is a dot and a suffix free of dots and separators,
   * and the last component of the stem before it is not only dots.
   */
  function SplitExt(p: string): (r: (string, string))
    ensures r.0 + r.1 == p
    ensures r.1 == [] || (r.1[0] == '.' && forall k :: 0 < k < |r.1| ==> r.1[k] != '.' && r.1[k] != '/')
    ensures r.1 != [] ==> 0 <= RFind(r.0, '/') + 1 <= |r.0| && HasNonDot(r.0, RFind(r.0, '/') + 1, |r.0|)
  {
    var sep := RFind(p, '/');
    var dot := RFind(p, '.');
    if dot > sep && HasNonDot(p, sep + 1, dot) then
      var stem, ext := p[..dot], p[dot..];
      assert stem + ext == p;
      assert '/' !in ext by {
        forall j | 0 <= j < |ext| ensures ext[j] != '/' {
          assert ext[j] == p[dot + j];
        }
      }
      RFindAppend(stem, ext, '/');
      assert HasNonDot(stem, sep + 1, dot) by {
        var k :| sep + 1 <= k < dot && p[k] != '.';
        assert stem[k] == p[k];
      }
      (stem, ext)
    else (p, "")
  }

  /** ASCII lower-casing. */
  function Lower(s: string): (r: string)
    ensures |r| == |s|
    ensures forall i :: 0 <= i < |s| ==> r[i] == if 'A' <= s[i] <= 'Z' then (s[i] as int + 32) as char else s[i]
  {
    seq(|s|, i requires 0 <= i < |s| => if 'A' <= s[i] <= 'Z' then (s[i] as int + 32) as char else s[i])
  }

  /**
   * os.path.join of two parts: an absolute second part replaces the first;
   * otherwise the parts are joined by one '/', unless the first is empty or
   * already ends with one.
   */
  function Join(dir: string, name: string): (p: string)
    ensures |p| >= |name| && p[|p| - |name|..] == name
    ensures |name| > 0 && name[0] == '/' ==> p == name
    ensures !(|name| > 0 && name[0] == '/') ==>
      var glued := dir == [] || dir[|dir| - 1] == '/';
      dir <= p && |p| == |dir| + |name| + (if glued then 0 else 1) && (!glued ==> p[|dir|] == '/')
  {
    if |name| > 0 && name[0] == '/' then name
    else if dir == [] || dir[|dir| - 1] == '/' then dir + name
    else dir + "/" + name
  }

  /** The accepted upload's stored path and request id, or the 400 rejection. */
  function SaveUpload(filename: string, requestId: string): (r: Result<(string, string), HttpError>)
    ensures r.Ok? <==> Lower(SplitExt(filename).1) in AllowedExtensions
    ensures r.Err? ==> r.error == BadFormat
    ensures r.Ok? ==> r.value.1 == requestId && r.value.0 == Join(UploadsDir, requestId + SplitExt(filename).1)
  {
    var (_, extension) := SplitExt(filename);
    if Lower(extension) !in AllowedExtensions then Err(BadFormat)
    else Ok((Join(UploadsDir, requestId + extension), requestId))
  }

  lemma {:induction false} RFindAppend(a: string, b: string, c: char)
    ensures c in b ==> RFind(a + b, c) == |a| + RFind(b, c)
    ensures c !in b ==> RFind(a + b, c) == RFind(a, c)
    decreases |b|
  {
    if |b| > 0 {
      var b' := b[..|b| - 1];
      assert (a + b)[..|a + b| - 1] == a + b';
      RFindAppend(a, b', c);
    } else {
      assert a + b == a;
    }
  }

  /** A request id of the uuid kind: not empty, no dot, no separator. */
  predicate PlainId(id: string) {
    |id| > 0 && '.' !in id && '/' !in id
  }

  /** An accepted extension is a dot followed by three letters. */
  lemma AcceptedExtensionShape(ext: string)
    requires Lower(ext) in AllowedExtensions
    ensures |ext| == 4 && ext[0] == '.' && '.' !in ext[1..] && '/' !in ext
  {
    var l := Lower(ext);
    assert |l| == 4 && l[0] == '.';
    forall k | 1 <= k < 4 ensures ext[k] != '.' && ext[k] != '/' {
      assert l[k] in "mp4movavi";
    }
  }

  /** The last occurrence of c is the one that starts the tail. */
  lemma LastAtTail(head: string, tail: string, c: char)
    requires |tail| > 0 && tail[0] == c && c !in tail[1..]
    ensures RFind(head + tail, c) == |head|
  {
    var h, rest := head + [c], tail[1..];
    assert head + tail == h + rest by {
      assert tail == [c] + rest;
    }
    RFindAppend(h, rest, c);
  }

  /** A character that does not occur is not found. */
  lemma NotFound(s: string, c: char)
    requires c !in s
    ensures RFind(s, c) == -1
  {
  }

  /**
   * A name made of a stem that has a non-dot character after its last
   * separator, followed by a dot and a suffix without dots or separators,
   * splits into exactly that stem and that extension.
   */
  lemma SplitAtExtension(stem: string, ext: string)
    requires |ext| > 0 && ext[0] == '.' && '.' !in ext[1..] && '/' !in ext
    requires 0 <= RFind(stem, '/') + 1 <= |stem| && HasNonDot(stem, RFind(stem, '/') + 1, |stem|)
    ensures SplitExt(stem + ext) == (stem, ext)
  {
    var p := stem + ext;
    var sep := RFind(stem, '/');
    RFindAppend(stem, ext, '/');
    LastAtTail(stem, ext, '.');
    var k :| sep + 1 <= k < |stem| && stem[k] != '.';
    assert p[k] == stem[k];
    assert HasNonDot(p, sep + 1, |stem|);
    assert p[..|stem|] == stem && p[|stem|..] == ext;
  }

  /**
   * The stored path is "uploads/<id><extension>", and splitting it again
   * gives back the uploaded file's own extension, letter case kept.
   */
  lemma StoredPathKeepsExtension(filename: string, requestId: string)
    requires PlainId(requestId) && SaveUpload(filename, requestId).Ok?
    ensures var path := SaveUpload(filename, requestId).value.0;
      path == "uploads/" + requestId + SplitExt(filename).1 &&
      SplitExt(path) == ("uploads/" + requestId, SplitExt(filename).1)
  {
    var ext := SplitExt(filename).1;
    AcceptedExtensionShape(ext);
    var stem := "uploads/" + requestId;
    assert SaveUpload(filename, requestId).value.0 == stem + ext;
    assert stem == "uploads" + ("/" + requestId);
    LastAtTail("uploads", "/" + requestId, '/');
    assert stem[8] == requestId[0] != '.';
    assert HasNonDot(stem, 8, |stem|);
    SplitAtExtension(stem, ext);
  }

  /** Letter case of the extension does not matter. */
  lemma UpperCaseExtensionAccepted(requestId: string)
    ensures SaveUpload("squat.MOV", requestId).Ok?
  {
    var stem, ext := "squat", ".MOV";
    NotFound(stem, '/');
    assert stem[0] != '.';
    assert ext[1..] == "MOV";
    SplitAtExtension(stem, ext);
    assert stem + ext == "squat.MOV";
    assert Lower(ext) == ".mov";
  }

  /** A name that is only a dotted suffix has no extension, so it is rejected. */
  lemma DotFileRejected(requestId: string)
    ensures SaveUpload(".mp4", requestId).Err?
  {
    RFindAppend(".", "mp4", '.');
    assert "." + "mp4" == ".mp4";
    assert SplitExt(".mp4").1 == "";
    assert Lower("") !in AllowedExtensions;
  }

  /** Only the last extension counts. */
  lemma InnerExtensionIgnored(requestId: string)
    ensures SaveUpload("clip.mp4.txt", requestId).Err?
  {
    var stem, ext := "clip.mp4", ".txt";
    NotFound(stem, '/');
    assert stem[0] != '.';
    assert ext[1..] == "txt";
    SplitAtExtension(stem, ext);
    assert stem + ext == "clip.mp4.txt";
    assert Lower(ext)[1] == 't';
  }
}

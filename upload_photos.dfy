/** The photo upload script: walk a directory tree, upload the first 20
    files to bucket `test` under the names `001.<ext>` ... `020.<ext>`.
    The directory walk is an input (one `Dir` per `os.walk` step, in walk
    order); the upload calls are the returned `Upload` values. */
module UploadPhotos {
  import opened Wrappers
  import opened Text

  /** One step of `os.walk`: a directory and the file names in it. */
  datatype Dir = Dir(root: string, files: seq<string>)

  /** One `upload_file(source, bucket, target)` call, with the file name it
      announces on the `Uploading ... as ...` line. */
  datatype Upload = Upload(file: string, source: string, bucket: string, target: string)

  const Bucket: string := "test"

  /** The number of files uploaded at most. */
  const Limit: nat := 20

  function Min(a: int, b: int): int
  {
    if a < b then a else b
  }

  /** `os.path.join(root, file)`: an absolute `file` replaces `root`, and no
      `/` is added after an empty root or one already ending in `/`. */
  function PathJoin(root: string, file: string): (p: string)
    ensures |file| > 0 && file[0] == '/' ==> p == file
    ensures !(|file| > 0 && file[0] == '/') ==> |p| >= |root| + |file| && p[..|root|] == root && p[|p| - |file|..] == file
  {
    if |file| > 0 && file[0] == '/' then file
    else if root == [] || root[|root| - 1] == '/' then root + file
    else root + "/" + file
  }

  /** `file.split(".")[1]`: the text between the first and second dot;
      `None` (an `IndexError`) when the name has no dot. */
  function Ext(file: string): (e: Option<string>)
    ensures e.None? <==> '.' !in file
    ensures e.Some? ==> '.' !in e.value
  {
    var parts := Split(file, '.');
    SplitPieces(file, '.');
    if |parts| < 2 then None else Some(parts[1])
  }

  /** The extension is the second dot-separated component: `a.b.jpg` gives `b`. */
  lemma ExtSecondComponent(x: string, y: string, rest: string)
    requires '.' !in x && '.' !in y
    ensures Ext(x + "." + y) == Some(y)
    ensures Ext(x + "." + y + "." + rest) == Some(y)
  {
    SplitAfterPiece(x, y, '.');
    SplitPieces(y, '.');
    SplitAfterPiece(y, rest, '.');
    SplitAfterPiece(x, y + "." + rest, '.');
    assert x + "." + y + "." + rest == x + "." + (y + "." + rest);
  }

  /** The target name the script builds for counter `cpt`: the counter
      right-aligned in four columns, a dot, the extension, stripped, then
      one `0` prepended below 10 and another below 100. */
  function TargetName(cpt: nat, ext: string): string
  {
    ZeroPrefixed(cpt, Strip(PadLeft(NatToString(cpt), 4) + "." + ext))
  }

  /** The two conditional `"0" + t` steps. */
  function ZeroPrefixed(cpt: nat, t: string): string
  {
    var t' := if cpt < 10 then "0" + t else t;
    if cpt < 100 then "0" + t' else t'
  }

  /** Three decimal digits with leading zeros. */
  function ZeroPad3(n: nat): (r: string)
    requires n < 1000
    ensures |r| == 3 && forall i :: 0 <= i < 3 ==> '0' <= r[i] <= '9'
  {
    [Digit(n / 100), Digit(n / 10 % 10), Digit(n % 10)]
  }

  lemma Recompose(n: nat)
    requires n < 1000
    ensures n == 100 * (n / 100) + 10 * (n / 10 % 10) + n % 10
  {
    assert n == 10 * (n / 10) + n % 10;
    assert n / 10 == 10 * (n / 10 / 10) + n / 10 % 10;
    assert n / 10 / 10 == n / 100;
  }

  /** Different counters never share a padded number. */
  lemma ZeroPad3Injective(a: nat, b: nat)
    requires a < 1000 && b < 1000 && ZeroPad3(a) == ZeroPad3(b)
    ensures a == b
  {
    assert a / 100 == b / 100 by {
      DigitValueOf(a / 100);
      DigitValueOf(b / 100);
      assert ZeroPad3(a)[0] == ZeroPad3(b)[0];
    }
    assert a / 10 % 10 == b / 10 % 10 by {
      DigitValueOf(a / 10 % 10);
      DigitValueOf(b / 10 % 10);
      assert ZeroPad3(a)[1] == ZeroPad3(b)[1];
    }
    assert a % 10 == b % 10 by {
      DigitValueOf(a % 10);
      DigitValueOf(b % 10);
      assert ZeroPad3(a)[2] == ZeroPad3(b)[2];
    }
    Recompose(a);
    Recompose(b);
  }

  lemma TwoDigits(n: nat)
    requires 10 <= n < 100
    ensures NatToString(n) == [Digit(n / 10 % 10), Digit(n % 10)]
  {
    assert NatToString(n) == NatToString(n / 10) + [Digit(n % 10)];
  }

  lemma ThreeDigits(n: nat)
    requires 100 <= n < 1000
    ensures NatToString(n) == [Digit(n / 100), Digit(n / 10 % 10), Digit(n % 10)]
  {
    var m := n / 10;
    assert NatToString(n) == NatToString(m) + [Digit(n % 10)];
    TwoDigits(m);
    HundredsDigit(n);
  }

  lemma HundredsDigit(n: nat)
    requires 100 <= n < 1000
    ensures 10 <= n / 10 < 100 && n / 10 / 10 % 10 == n / 100
  {
  }

  /** The decimal form of a counter below 1000, zero-padded to three digits. */
  lemma PaddedDigits(n: nat)
    requires 1 <= n < 1000
    ensures (if n < 100 then "0" else "") + (if n < 10 then "0" else "") + NatToString(n) == ZeroPad3(n)
  {
    if n < 10 {
    } else if n < 100 {
      TwoDigits(n);
    } else {
      ThreeDigits(n);
    }
  }

  /** Stripping the padded counter removes the leading blanks and the
      extension's trailing whitespace, nothing else. */
  lemma StripPadded(d: string, ext: string)
    requires 1 <= |d| <= 4 && !IsSpace(d[0])
    ensures Strip(PadLeft(d, 4) + "." + ext) == d + "." + RStrip(ext)
  {
    RStripPadded(d, ext);
    LStripBlanks(4 - |d|, d + "." + RStrip(ext));
  }

  lemma RStripPadded(d: string, ext: string)
    requires 1 <= |d| <= 4
    ensures RStrip(PadLeft(d, 4) + "." + ext) == Repeat(' ', 4 - |d|) + (d + "." + RStrip(ext))
  {
    var x := d + ".";
    var pad := Repeat(' ', 4 - |d|);
    PaddedParts(d, ext);
    RStripAppend(pad + x, ext);
    StringAssoc(pad, x, RStrip(ext));
  }

  lemma PaddedParts(d: string, ext: string)
    requires |d| <= 4
    ensures PadLeft(d, 4) + "." + ext == (Repeat(' ', 4 - |d|) + (d + ".")) + ext
  {
    assert PadLeft(d, 4) == Repeat(' ', 4 - |d|) + d;
  }

  /** Regrouping a concatenation, stated over fresh variables so that the
      callers' proofs do not search for it. */
  lemma StringAssoc(x: string, y: string, z: string)
    ensures (x + y) + z == x + (y + z)
  {
  }

  /** The built name is the three-digit counter, a dot and the extension
      without trailing whitespace. */
  lemma TargetNameShape(cpt: nat, ext: string)
    requires 1 <= cpt < 1000
    ensures TargetName(cpt, ext) == ZeroPad3(cpt) + "." + RStrip(ext)
  {
    var d := NatToString(cpt);
    var zeros := (if cpt < 100 then "0" else "") + (if cpt < 10 then "0" else "");
    ZeroPrefixedZeros(cpt, Strip(PadLeft(d, 4) + "." + ext));
    ShortCounter(cpt);
    StripPadded(d, ext);
    PaddedDigits(cpt);
    DotAssoc(zeros, d, RStrip(ext));
  }

  lemma ShortCounter(cpt: nat)
    requires 1 <= cpt < 1000
    ensures 1 <= |NatToString(cpt)| <= 3
  {
    if cpt >= 100 {
      ThreeDigits(cpt);
    } else if cpt >= 10 {
      TwoDigits(cpt);
    }
  }

  /** The zeros prepended to the stripped text. */
  lemma ZeroPrefixedZeros(cpt: nat, t: string)
    ensures ZeroPrefixed(cpt, t) == (if cpt < 100 then "0" else "") + (if cpt < 10 then "0" else "") + t
  {
    if cpt < 10 {
      assert "0" + ("0" + t) == "0" + "0" + t;
    }
  }

  lemma DotAssoc(a: string, b: string, c: string)
    ensures a + (b + "." + c) == (a + b) + "." + c
  {
  }

  /** A file the script uploads: its directory, its name, its counter and
      its extension. */
  datatype Planned = Planned(root: string, file: string, cpt: nat, ext: string)

  /** The upload call made for a planned file. */
  function ToUpload(p: Planned): Upload
  {
    Upload(p.file, PathJoin(p.root, p.file), Bucket, TargetName(p.cpt, p.ext))
  }

  function Uploads(ps: seq<Planned>): (us: seq<Upload>)
    ensures |us| == |ps| && forall i :: 0 <= i < |ps| ==> us[i] == ToUpload(ps[i])
  {
    seq(|ps|, i requires 0 <= i < |ps| => ToUpload(ps[i]))
  }

  /** The printed line announcing an upload: `print("Uploading", file,
      "as", tname)` joins its arguments with single spaces. */
  function Announce(u: Upload): string
  {
    "Uploading " + u.file + " as " + u.target
  }

  /** The announcements of a run of uploads, one per upload, in order. */
  function Announcements(us: seq<Upload>): (lines: seq<string>)
    ensures |lines| == |us| && forall i :: 0 <= i < |us| ==> lines[i] == Announce(us[i])
  {
    seq(|us|, i requires 0 <= i < |us| => Announce(us[i]))
  }

  // ---------------------------------------------------------------- the walk

  /** The script's state: the counter, the uploads so far, and whether an
      `IndexError` ended the script. */
  datatype Progress = Progress(cpt: nat, planned: seq<Planned>, aborted: bool)

  const Start: Progress := Progress(0, [], false)

  lemma AnnouncementsAppend(xs: seq<Upload>, ys: seq<Upload>)
    ensures Announcements(xs + ys) == Announcements(xs) + Announcements(ys)
  {
  }

  /** The inner loop over one directory's files. */
  function VisitFiles(st: Progress, root: string, files: seq<string>): Progress
    decreases |files|
  {
    if files == [] || st.aborted then st
    else
      var cpt := st.cpt + 1;
      if cpt > Limit then st.(cpt := cpt)
      else
        match Ext(files[0])
        case None => st.(cpt := cpt, aborted := true)
        case Some(ext) =>
          VisitFiles(Progress(cpt, st.planned + [Planned(root, files[0], cpt, ext)], false), root, files[1..])
  }

  /** The outer loop over the walk. */
  function Walk(st: Progress, dirs: seq<Dir>): Progress
    decreases |dirs|
  {
    if dirs == [] || st.aborted then st
    else Walk(VisitFiles(st, dirs[0].root, dirs[0].files), dirs[1..])
  }

  /** The script's two nested loops; `break` leaves only the inner one, so
      every later directory with files still bumps the counter once. */
  method UploadAll(dirs: seq<Dir>) returns (uploads: seq<Upload>, cpt: nat, aborted: bool, lines: seq<string>)
    ensures uploads == Uploads(Walk(Start, dirs).planned)
    ensures cpt == Walk(Start, dirs).cpt && aborted == Walk(Start, dirs).aborted
    ensures |lines| == |uploads| && forall i :: 0 <= i < |uploads| ==> lines[i] == Announce(uploads[i])
  {
    cpt := 0;
    uploads := [];
    lines := [];
    aborted := false;
    ghost var planned: seq<Planned> := [];
    var d := 0;
    while d < |dirs|
      invariant 0 <= d <= |dirs|
      invariant uploads == Uploads(planned)
      invariant Walk(Start, dirs) == Walk(Progress(cpt, planned, false), dirs[d..])
      invariant lines == Announcements(uploads)
    {
      assert dirs[d..][1..] == dirs[d + 1..];
      var added;
      ghost var more;
      added, cpt, aborted, more := UploadDir(dirs[d].root, dirs[d].files, cpt, planned);
      UploadsAppend(planned, more);
      AnnouncementsAppend(uploads, added);
      uploads := uploads + added;
      lines := lines + Announcements(added);
      planned := planned + more;
      if aborted {
        return;
      }
      d := d + 1;
    }
  }

  /** The inner loop over one directory's files, from counter `cpt0`: the
      uploads it makes, the new counter and whether it aborted. */
  method UploadDir(root: string, files: seq<string>, cpt0: nat, ghost planned0: seq<Planned>)
    returns (added: seq<Upload>, cpt: nat, aborted: bool, ghost planned: seq<Planned>)
    ensures VisitFiles(Progress(cpt0, planned0, false), root, files) == Progress(cpt, planned0 + planned, aborted)
    ensures added == Uploads(planned)
  {
    cpt := cpt0;
    added := [];
    aborted := false;
    planned := [];
    var j := 0;
    assert planned0 + planned == planned0 && files[j..] == files;
    while j < |files|
      invariant 0 <= j <= |files|
      invariant added == Uploads(planned)
      invariant VisitFiles(Progress(cpt0, planned0, false), root, files)
             == VisitFiles(Progress(cpt, planned0 + planned, false), root, files[j..])
    {
      VisitOne(cpt, planned0 + planned, root, files, j);
      cpt := cpt + 1;
      if cpt > Limit {
        return;
      }
      var fullpath := PathJoin(root, files[j]);
      var ext := Ext(files[j]);
      if ext.None? {
        aborted := true;
        return;
      }
      var tname := BuildTarget(cpt, ext.value);
      ghost var p := Planned(root, files[j], cpt, ext.value);
      assert Upload(files[j], fullpath, Bucket, tname) == ToUpload(p);
      UploadsAppend(planned, [p]);
      PlannedAssoc(planned0, planned, [p]);
      added := added + [Upload(files[j], fullpath, Bucket, tname)];
      planned := planned + [p];
      j := j + 1;
    }
    assert planned0 + planned + [] == planned0 + planned;
  }

  /** One turn of the inner loop, read off `VisitFiles`: the counter goes
      up, then the limit, a dotless name or an upload decides what
      follows. */
  lemma VisitOne(cpt: nat, planned: seq<Planned>, root: string, files: seq<string>, j: nat)
    requires j < |files|
    ensures cpt + 1 > Limit ==>
      VisitFiles(Progress(cpt, planned, false), root, files[j..]) == Progress(cpt + 1, planned, false)
    ensures cpt + 1 <= Limit && Ext(files[j]).None? ==>
      VisitFiles(Progress(cpt, planned, false), root, files[j..]) == Progress(cpt + 1, planned, true)
    ensures cpt + 1 <= Limit && Ext(files[j]).Some? ==>
      VisitFiles(Progress(cpt, planned, false), root, files[j..])
      == VisitFiles(Progress(cpt + 1, planned + [Planned(root, files[j], cpt + 1, Ext(files[j]).value)], false),
                    root, files[j + 1..])
  {
    assert files[j..][0] == files[j];
    assert files[j..][1..] == files[j + 1..];
  }

  /** The target name, built in the script's steps. */
  method BuildTarget(cpt: nat, ext: string) returns (tname: string)
    ensures tname == TargetName(cpt, ext)
  {
    tname := PadLeft(NatToString(cpt), 4) + "." + ext;
    tname := Strip(tname);
    if cpt < 10 {
      tname := "0" + tname;
    }
    if cpt < 100 {
      tname := "0" + tname;
    }
  }

  lemma UploadsAppend(xs: seq<Planned>, ys: seq<Planned>)
    ensures Uploads(xs + ys) == Uploads(xs) + Uploads(ys)
  {
  }

  // ---------------------------------------------------------------- flat view

  /** The walk's files in order, each with its directory. */
  function Files(dirs: seq<Dir>): seq<(string, string)>
    decreases |dirs|
  {
    if dirs == [] then []
    else InDir(dirs[0]) + Files(dirs[1..])
  }

  function InDir(d: Dir): (fs: seq<(string, string)>)
    ensures |fs| == |d.files| && forall i :: 0 <= i < |fs| ==> fs[i] == (d.root, d.files[i])
  {
    seq(|d.files|, i requires 0 <= i < |d.files| => (d.root, d.files[i]))
  }

  /** The uploads of a flat file list whose first file gets counter `k`,
      and whether a dotless file among those counted ends the run. */
  function Flat(fs: seq<(string, string)>, k: nat): (seq<Planned>, bool)
    decreases |fs|
  {
    if fs == [] || k > Limit then ([], false)
    else
      match Ext(fs[0].1)
      case None => ([], true)
      case Some(ext) =>
        var rest := Flat(fs[1..], k + 1);
        ([Planned(fs[0].0, fs[0].1, k, ext)] + rest.0, rest.1)
  }

  /** Running over `a + b` is running over `a`, then over `b` with the
      counter advanced by `|a|`, unless `a` aborted. */
  lemma {:induction false} FlatAppend(a: seq<(string, string)>, b: seq<(string, string)>, k: nat)
    ensures Flat(a, k).1 ==> Flat(a + b, k) == Flat(a, k)
    ensures !Flat(a, k).1 ==> Flat(a + b, k).0 == Flat(a, k).0 + Flat(b, k + |a|).0
    ensures !Flat(a, k).1 ==> Flat(a + b, k).1 == Flat(b, k + |a|).1
    decreases |a|
  {
    if a == [] {
      assert a + b == b;
    } else if k <= Limit {
      assert (a + b)[0] == a[0] && (a + b)[1..] == a[1..] + b;
      match Ext(a[0].1)
      case None =>
      case Some(ext) =>
        FlatAppend(a[1..], b, k + 1);
        var u := Planned(a[0].0, a[0].1, k, ext);
        assert Flat(a + b, k).0 == [u] + Flat(a[1..] + b, k + 1).0;
        assert Flat(a, k).0 == [u] + Flat(a[1..], k + 1).0;
    }
  }

  /** One directory's visit appends exactly the flat uploads of its files. */
  lemma {:induction false} VisitFlat(st: Progress, root: string, files: seq<string>)
    requires !st.aborted
    ensures VisitFiles(st, root, files).planned == st.planned + Flat(InDir(Dir(root, files)), st.cpt + 1).0
    ensures VisitFiles(st, root, files).aborted == Flat(InDir(Dir(root, files)), st.cpt + 1).1
    ensures !VisitFiles(st, root, files).aborted ==>
      if st.cpt + |files| <= Limit then VisitFiles(st, root, files).cpt == st.cpt + |files|
      else VisitFiles(st, root, files).cpt > Limit
    decreases |files|
  {
    if files != [] && st.cpt + 1 <= Limit {
      var fs := InDir(Dir(root, files));
      assert fs[1..] == InDir(Dir(root, files[1..]));
      match Ext(files[0])
      case None =>
      case Some(ext) =>
        var next := Progress(st.cpt + 1, st.planned + [Planned(root, files[0], st.cpt + 1, ext)], false);
        VisitFlat(next, root, files[1..]);
    }
  }

  /** The whole walk performs the flat uploads of all its files, counted
      from the state's counter. */
  lemma {:induction false} WalkFlat(st: Progress, dirs: seq<Dir>)
    requires !st.aborted
    ensures Walk(st, dirs).planned == st.planned + Flat(Files(dirs), st.cpt + 1).0
    ensures Walk(st, dirs).aborted == Flat(Files(dirs), st.cpt + 1).1
    decreases |dirs|
  {
    if dirs != [] {
      var a := InDir(dirs[0]);
      var next := VisitFiles(st, dirs[0].root, dirs[0].files);
      assert Dir(dirs[0].root, dirs[0].files) == dirs[0];
      var rest := Files(dirs[1..]);
      var k := st.cpt + 1;
      assert Files(dirs) == a + rest;
      assert Walk(st, dirs) == Walk(next, dirs[1..]);
      VisitFlat(st, dirs[0].root, dirs[0].files);
      FlatAppend(a, rest, k);
      if next.aborted {
        assert Walk(next, dirs[1..]) == next;
        assert Flat(Files(dirs), k) == Flat(a, k);
      } else {
        WalkFlat(next, dirs[1..]);
        assert Flat(rest, next.cpt + 1) == Flat(rest, k + |a|) by {
          if next.cpt != st.cpt + |a| {
            assert Flat(rest, next.cpt + 1) == ([], false) == Flat(rest, k + |a|);
          }
        }
        assert Walk(st, dirs).planned == (st.planned + Flat(a, k).0) + Flat(rest, k + |a|).0;
        assert Flat(Files(dirs), k).0 == Flat(a, k).0 + Flat(rest, k + |a|).0;
        PlannedAssoc(st.planned, Flat(a, k).0, Flat(rest, k + |a|).0);
      }
    }
  }

  lemma PlannedAssoc(x: seq<Planned>, y: seq<Planned>, z: seq<Planned>)
    ensures (x + y) + z == x + (y + z)
  {
  }

  /** What the flat run does: the first `Limit` files, in walk order, each
      uploaded under its counter, stopping early at the first dotless file. */
  lemma {:induction false} FlatFacts(fs: seq<(string, string)>, k: nat)
    requires 1 <= k <= Limit + 1
    ensures |Flat(fs, k).0| <= |fs| && |Flat(fs, k).0| <= Limit + 1 - k
    ensures forall i :: 0 <= i < |Flat(fs, k).0| ==>
      '.' in fs[i].1 && Flat(fs, k).0[i] == Planned(fs[i].0, fs[i].1, k + i, Ext(fs[i].1).value)
    ensures Flat(fs, k).1 ==>
      |Flat(fs, k).0| < |fs| && |Flat(fs, k).0| < Limit + 1 - k && '.' !in fs[|Flat(fs, k).0|].1
    ensures !Flat(fs, k).1 ==> |Flat(fs, k).0| == Min(|fs|, Limit + 1 - k)
    decreases |fs|
  {
    if fs != [] && k <= Limit && Ext(fs[0].1).Some? {
      FlatFacts(fs[1..], k + 1);
      var r := Flat(fs, k);
      forall i | 1 <= i < |r.0|
        ensures '.' in fs[i].1 && r.0[i] == Planned(fs[i].0, fs[i].1, k + i, Ext(fs[i].1).value)
      {
        assert r.0[i] == Flat(fs[1..], k + 1).0[i - 1];
        assert fs[1..][i - 1] == fs[i];
      }
    }
  }

  /** The walk plans the first files of the flat list, counted from 1. */
  lemma WalkPlan(dirs: seq<Dir>)
    ensures var r := Walk(Start, dirs); var fs := Files(dirs);
      |r.planned| <= Limit && |r.planned| <= |fs| &&
      (forall i :: 0 <= i < |r.planned| ==>
         '.' in fs[i].1 && r.planned[i] == Planned(fs[i].0, fs[i].1, i + 1, Ext(fs[i].1).value)) &&
      (r.aborted ==> |r.planned| < Limit && |r.planned| < |fs| && '.' !in fs[|r.planned|].1) &&
      (!r.aborted ==> |r.planned| == Min(|fs|, Limit))
  {
    WalkFlat(Start, dirs);
    FlatFacts(Files(dirs), 1);
  }

  /** The script uploads the walk's first files in order, at most 20, the
      i-th (from 0) as `<i+1 padded to three digits>.<ext>`; it aborts
      exactly when a dotless file comes before the 21st, and the files
      uploaded are then all those before it. */
  lemma UploadPlan(dirs: seq<Dir>)
    ensures var r := Walk(Start, dirs); var u := Uploads(r.planned); var fs := Files(dirs);
      |u| <= Limit && |u| <= |fs| &&
      (forall i :: 0 <= i < |u| ==>
         '.' in fs[i].1 && u[i].file == fs[i].1 && u[i].bucket == Bucket &&
         u[i].source == PathJoin(fs[i].0, fs[i].1) &&
         u[i].target == ZeroPad3(i + 1) + "." + RStrip(Ext(fs[i].1).value)) &&
      (r.aborted ==> |u| < Limit && |u| < |fs| && '.' !in fs[|u|].1) &&
      (!r.aborted ==> |u| == Min(|fs|, Limit))
  {
    WalkPlan(dirs);
    var r := Walk(Start, dirs);
    var u := Uploads(r.planned);
    forall i | 0 <= i < |u|
      ensures u[i].target == ZeroPad3(i + 1) + "." + RStrip(r.planned[i].ext)
    {
      TargetNameShape(i + 1, r.planned[i].ext);
    }
  }

  /** Names that start with different three-digit counters differ. */
  lemma NumberedNamesDiffer(a: nat, b: nat, x: string, y: string)
    requires 1 <= a < 1000 && 1 <= b < 1000 && a != b
    ensures ZeroPad3(a) + "." + x != ZeroPad3(b) + "." + y
  {
    if ZeroPad3(a) + "." + x == ZeroPad3(b) + "." + y {
      assert (ZeroPad3(a) + "." + x)[..3] == ZeroPad3(a);
      assert (ZeroPad3(b) + "." + y)[..3] == ZeroPad3(b);
      ZeroPad3Injective(a, b);
    }
  }

  /** Files planned under the counters 1, 2, ... get pairwise different
      target names. */
  lemma CountedTargetsDiffer(ps: seq<Planned>)
    requires |ps| <= Limit && forall i :: 0 <= i < |ps| ==> ps[i].cpt == i + 1
    ensures forall i, j :: 0 <= i < j < |ps| ==> ToUpload(ps[i]).target != ToUpload(ps[j]).target
  {
    forall i, j | 0 <= i < j < |ps|
      ensures ToUpload(ps[i]).target != ToUpload(ps[j]).target
    {
      TargetNameShape(i + 1, ps[i].ext);
      TargetNameShape(j + 1, ps[j].ext);
      NumberedNamesDiffer(i + 1, j + 1, RStrip(ps[i].ext), RStrip(ps[j].ext));
    }
  }

  /** No two uploads share a target name, so none overwrites another. */
  lemma DistinctTargets(dirs: seq<Dir>)
    ensures var u := Uploads(Walk(Start, dirs).planned);
      forall i, j :: 0 <= i < j < |u| ==> u[i].target != u[j].target
  {
    WalkPlan(dirs);
    var ps := Walk(Start, dirs).planned;
    assert forall i :: 0 <= i < |ps| ==> ps[i].cpt == i + 1;
    CountedTargetsDiffer(ps);
  }
}

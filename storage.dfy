/*
 * The artifact storage service (storage/main.go): uploads are saved in
 * one directory as <buildId>-<YYYYMMDD-HHMMSS>.tar.gz, and a download
 * serves the first file, in name order, whose name is <buildId>
 * followed by anything and ".tar.gz".
 *
 * The directory is a map from file name to content. The clock reading
 * and the outcome of the file system calls are parameters.
 */
module Storage {
  type Bytes = seq<bv8>

  // -----------------------------------------------------------------------
  // Name order (filepath.Glob returns its matches sorted)
  // -----------------------------------------------------------------------

  /**
   * a sorts strictly before b, character by character. Comparing code
   * points gives the same order as comparing their UTF-8 bytes.
   */
  predicate Below(a: string, b: string) {
    b != [] && (a == [] || a[0] < b[0] || (a[0] == b[0] && Below(a[1..], b[1..])))
  }

  lemma {:induction false} BelowIrreflexive(a: string)
    ensures !Below(a, a)
  {
    if a != [] {
      BelowIrreflexive(a[1..]);
    }
  }

  lemma {:induction false} BelowTransitive(a: string, b: string, c: string)
    requires Below(a, b) && Below(b, c)
    ensures Below(a, c)
  {
    if a != [] && a[0] == b[0] && b[0] == c[0] {
      BelowTransitive(a[1..], b[1..], c[1..]);
    }
  }

  lemma {:induction false} BelowTotal(a: string, b: string)
    requires a != b
    ensures Below(a, b) || Below(b, a)
  {
    if a != [] && b != [] && a[0] == b[0] {
      assert a == [a[0]] + a[1..] && b == [b[0]] + b[1..];
      BelowTotal(a[1..], b[1..]);
    }
  }

  lemma BelowAsymmetric(a: string, b: string)
    requires Below(a, b)
    ensures !Below(b, a)
  {
    if Below(b, a) {
      BelowTransitive(a, b, a);
      BelowIrreflexive(a);
    }
  }

  predicate Least(m: string, s: set<string>) {
    m in s && forall y :: y in s ==> m == y || Below(m, y)
  }

  lemma {:induction false} LeastExists(s: set<string>)
    requires s != {}
    ensures exists m :: Least(m, s)
    decreases |s|
  {
    var x :| x in s;
    if s != {x} {
      LeastExists(s - {x});
      var m :| Least(m, s - {x});
      if Below(x, m) {
        forall y | y in s
          ensures x == y || Below(x, y)
        {
          if y != x && y != m {
            BelowTransitive(x, m, y);
          }
        }
        assert Least(x, s);
      } else {
        BelowTotal(x, m);
        assert Least(m, s);
      }
    } else {
      assert Least(x, s);
    }
  }

  lemma LeastUnique(m: string, n: string, s: set<string>)
    requires Least(m, s) && Least(n, s)
    ensures m == n
  {
    if m != n {
      BelowAsymmetric(m, n);
    }
  }

  /** The first name of a non-empty set in name order. */
  function First(s: set<string>): (m: string)
    requires s != {}
    ensures Least(m, s)
  {
    LeastExists(s);
    assert forall m, n :: Least(m, s) && Least(n, s) ==> m == n by {
      forall m, n | Least(m, s) && Least(n, s)
        ensures m == n
      {
        LeastUnique(m, n, s);
      }
    }
    var m :| Least(m, s);
    m
  }

  // -----------------------------------------------------------------------
  // File names
  // -----------------------------------------------------------------------

  /** A reading of the wall clock, to the second. */
  datatype Clock = Clock(year: int, month: int, day: int, hour: int, minute: int, second: int)

  predicate ValidClock(c: Clock) {
    0 <= c.year <= 9999 && 1 <= c.month <= 12 && 1 <= c.day <= 31
    && 0 <= c.hour < 24 && 0 <= c.minute < 60 && 0 <= c.second < 60
  }

  function Pow10(w: nat): (p: nat)
    ensures p >= 1
  {
    if w == 0 then 1 else 10 * Pow10(w - 1)
  }

  /** n in decimal, padded with zeros to `width` digits. */
  function Pad(n: nat, width: nat): (s: string)
    requires n < Pow10(width)
    ensures |s| == width
    ensures forall i :: 0 <= i < |s| ==> '0' <= s[i] <= '9'
  {
    if width == 0 then [] else Pad(n / 10, width - 1) + [('0' as int + n % 10) as char]
  }

  /** Padded numbers of one width are equal only when the numbers are. */
  lemma {:induction false} PadInjective(a: nat, b: nat, width: nat)
    requires a < Pow10(width) && b < Pow10(width)
    requires Pad(a, width) == Pad(b, width)
    ensures a == b
  {
    if width > 0 {
      var pa, pb := Pad(a, width), Pad(b, width);
      assert pa[..width - 1] == Pad(a / 10, width - 1);
      assert pb[..width - 1] == Pad(b / 10, width - 1);
      PadInjective(a / 10, b / 10, width - 1);
      assert pa[width - 1] == pb[width - 1];
    }
  }

  /** time.Format("20060102-150405"). */
  function Stamp(c: Clock): (s: string)
    requires ValidClock(c)
    ensures |s| == 15 && s[8] == '-'
  {
    Pad(c.year, 4) + Pad(c.month, 2) + Pad(c.day, 2) + "-" + Pad(c.hour, 2) + Pad(c.minute, 2) + Pad(c.second, 2)
  }

  /** Different seconds give different stamps. */
  lemma StampInjective(c: Clock, d: Clock)
    requires ValidClock(c) && ValidClock(d)
    requires Stamp(c) == Stamp(d)
    ensures c == d
  {
    var s, t := Stamp(c), Stamp(d);
    assert s[0..4] == Pad(c.year, 4) && t[0..4] == Pad(d.year, 4);
    assert s[4..6] == Pad(c.month, 2) && t[4..6] == Pad(d.month, 2);
    assert s[6..8] == Pad(c.day, 2) && t[6..8] == Pad(d.day, 2);
    assert s[9..11] == Pad(c.hour, 2) && t[9..11] == Pad(d.hour, 2);
    assert s[11..13] == Pad(c.minute, 2) && t[11..13] == Pad(d.minute, 2);
    assert s[13..15] == Pad(c.second, 2) && t[13..15] == Pad(d.second, 2);
    PadInjective(c.year, d.year, 4);
    PadInjective(c.month, d.month, 2);
    PadInjective(c.day, d.day, 2);
    PadInjective(c.hour, d.hour, 2);
    PadInjective(c.minute, d.minute, 2);
    PadInjective(c.second, d.second, 2);
  }

  const Suffix: string := ".tar.gz"

  /** The name an upload for `id` at `c` is saved under. */
  function FileName(id: string, c: Clock): (name: string)
    requires ValidClock(c)
    ensures |name| == |id| + 23
  {
    id + "-" + Stamp(c) + Suffix
  }

  /** Two uploads get the same name only for the same build in the same second. */
  lemma FileNameInjective(id: string, c: Clock, id2: string, d: Clock)
    requires ValidClock(c) && ValidClock(d)
    requires FileName(id, c) == FileName(id2, d)
    ensures id == id2 && c == d
  {
    var n := FileName(id, c);
    assert n[..|id|] == id && FileName(id2, d)[..|id2|] == id2;
    assert n[|id| + 1..|id| + 16] == Stamp(c);
    assert FileName(id2, d)[|id2| + 1..|id2| + 16] == Stamp(d);
    StampInjective(c, d);
  }

  /** The glob "<id>*.tar.gz", with `id` taken literally. */
  predicate Matches(name: string, id: string) {
    |name| >= |id| + |Suffix| && name[..|id|] == id && name[|name| - |Suffix|..] == Suffix
  }

  /** A file saved for `id`, or for any build whose id starts with `id`, matches `id`. */
  lemma SavedMatchesPrefix(id: string, rest: string, c: Clock)
    requires ValidClock(c)
    ensures Matches(FileName(id + rest, c), id)
  {
    var n := FileName(id + rest, c);
    assert n[..|id|] == id;
    assert n[|n| - |Suffix|..] == Suffix;
  }

  function Matching(files: map<string, Bytes>, id: string): (names: set<string>)
    ensures forall n :: n in names <==> n in files && Matches(n, id)
  {
    set n | n in files && Matches(n, id)
  }

  /** The answer to GET /artifacts/{buildId}. */
  datatype Download =
    | BadRequest
    | NotFound
    | Served(fileName: string, disposition: string, body: Bytes)

  /** The outcome of os.Create and io.Copy for one upload. */
  datatype Disk = Saves | CreateFails | CopyFails(copied: nat)

  /** The multipart body of an upload: unparseable, without an "artifact" file, or with one. */
  datatype Form = Unparseable | NoArtifact | Artifact(content: Bytes)

  class StorageService {
    /** The artifacts directory: file name to content. */
    var files: map<string, Bytes>

    constructor ()
      ensures files == map[]
    {
      files := map[];
    }

    /**
     * GET /artifacts/{buildId}: 400 without an id, 404 when no file
     * matches, otherwise the first match in name order, offered as an
     * attachment under its own name.
     */
    function GetArtifact(id: string): (r: Download)
      reads this
      ensures id == "" <==> r.BadRequest?
      ensures r.NotFound? <==> id != "" && Matching(files, id) == {}
      ensures r.Served? ==>
        Least(r.fileName, Matching(files, id)) && r.body == files[r.fileName]
        && r.disposition == "attachment; filename=" + r.fileName
    {
      if id == "" then BadRequest
      else
        var matches := Matching(files, id);
        if matches == {} then NotFound
        else
          var name := First(matches);
          Served(name, "attachment; filename=" + name, files[name])
    }

    /**
     * POST /artifacts/{buildId}: saves the artifact as FileName(id, now),
     * replacing a file saved for the same build in the same second. A
     * failed copy leaves the file created with what was copied.
     */
    method UploadArtifact(id: string, form: Form, now: Clock, disk: Disk) returns (status: int)
      requires ValidClock(now)
      modifies this
      ensures id == "" || !form.Artifact? ==> status == 400 && files == old(files)
      ensures id != "" && form.Artifact? ==>
        match disk
        case CreateFails => status == 500 && files == old(files)
        case CopyFails(k) =>
          status == 500
          && files == old(files)[FileName(id, now) := form.content[..if k < |form.content| then k else |form.content|]]
        case Saves => status == 200 && files == old(files)[FileName(id, now) := form.content]
      ensures status == 200 ==> forall p :: p != "" && p <= id ==> GetArtifact(p).Served?
    {
      if id == "" {
        return 400;
      }
      if !form.Artifact? {
        return 400;
      }
      var name := FileName(id, now);
      match disk
      case CreateFails =>
        return 500;
      case CopyFails(k) =>
        files := files[name := form.content[..if k < |form.content| then k else |form.content|]];
        return 500;
      case Saves =>
        files := files[name := form.content];
        status := 200;
        forall p | p != "" && p <= id
          ensures GetArtifact(p).Served?
        {
          assert id == p + id[|p|..];
          SavedMatchesPrefix(p, id[|p|..], now);
          assert name in Matching(files, p);
        }
    }
  }
}

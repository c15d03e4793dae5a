/** The muxer registry of the command-line tool's output layer: the
    bounded table filled by `init_muxers`, the file-extension scan
    `find_extension`, and the first-match searches by which `output_open`
    picks a muxer by name or by the extension of the output file. */
module Output {
  import opened IntOps

  /** `MAX_NUM_MUXERS`: the capacity of the registry. */
  const MaxNumMuxers: nat := 3

  /** `ENOPROTOOPT` as numbered on Linux; `output_open` returns its negation. */
  const ENOPROTOOPT: int := 92

  /** The two strings of a muxer the lookups compare against. */
  datatype Muxer = Muxer(name: string, extension: string)

  /** The registry: the `muxers[]` array together with `num_muxers`. */
  class Registry {
    var muxers: seq<Muxer>

    ghost predicate Valid()
      reads this
    {
      |muxers| <= MaxNumMuxers
    }

    constructor ()
      ensures Valid() && muxers == []
    {
      muxers := [];
    }

    /** `register_muxer`: asserts there is room, then appends. */
    method Register(m: Muxer)
      requires Valid() && |muxers| < MaxNumMuxers
      modifies this
      ensures Valid() && muxers == old(muxers) + [m]
    {
      muxers := muxers + [m];
    }

    /** `init_muxers`: registers the md5, yuv and y4m2 muxers in that order,
        which fills the registry exactly. */
    method InitMuxers(md5: Muxer, yuv: Muxer, y4m2: Muxer)
      requires Valid() && muxers == []
      modifies this
      ensures Valid() && muxers == [md5, yuv, y4m2] && |muxers| == MaxNumMuxers
    {
      Register(md5);
      Register(yuv);
      Register(y4m2);
    }

    /** The search loop of `output_open`: the index of the first registered
        muxer whose name (or extension) equals `key`. */
    method Find(byName: bool, key: string) returns (r: Option<nat>)
      ensures r == FirstMatch(muxers, byName, key, 0)
    {
      var i := 0;
      while i < |muxers| && Key(muxers[i], byName) != key
        invariant 0 <= i <= |muxers|
        invariant FirstMatch(muxers, byName, key, i) == FirstMatch(muxers, byName, key, 0)
      {
        i := i + 1;
      }
      r := if i == |muxers| then None else Some(i);
    }

    /** The muxer choice of `output_open`: by name when one is given,
        otherwise by the extension of `filename`. */
    method Open(name: Option<string>, filename: string) returns (r: Selection)
      ensures r == Select(muxers, name, filename)
    {
      var found: Option<nat>;
      if name.Some? {
        found := Find(true, name.value);
      } else {
        var ext := FindExtension(filename);
        if ext.None? {
          return Failed(-1);
        }
        found := Find(false, filename[ext.value..]);
      }
      r := if found.Some? then Chosen(found.value) else Failed(-ENOPROTOOPT);
    }
  }

  function Key(m: Muxer, byName: bool): string
  {
    if byName then m.name else m.extension
  }

  /** The first index at or after `from` whose muxer carries `key`. */
  function FirstMatch(ms: seq<Muxer>, byName: bool, key: string, from: nat): (r: Option<nat>)
    requires from <= |ms|
    ensures r.Some? ==> from <= r.value < |ms| && Key(ms[r.value], byName) == key
    ensures r.Some? ==> forall j :: from <= j < r.value ==> Key(ms[j], byName) != key
    ensures r.None? <==> forall j :: from <= j < |ms| ==> Key(ms[j], byName) != key
    decreases |ms| - from
  {
    if from == |ms| then None
    else if Key(ms[from], byName) == key then Some(from)
    else FirstMatch(ms, byName, key, from + 1)
  }

  /** What `output_open` decides before it allocates: the registry index of
      the chosen muxer, or the error code it returns. */
  datatype Selection = Chosen(index: nat) | Failed(code: int)

  function Select(ms: seq<Muxer>, name: Option<string>, filename: string): (r: Selection)
    ensures r.Chosen? ==> r.index < |ms|
    ensures r.Failed? ==> r.code == -1 || r.code == -ENOPROTOOPT
    ensures r == Failed(-1) <==> name.None? && Extension(filename).None?
  {
    match name
    case Some(n) =>
      (match FirstMatch(ms, true, n, 0)
       case Some(i) => Chosen(i)
       case None => Failed(-ENOPROTOOPT))
    case None =>
      (match Extension(filename)
       case None => Failed(-1)
       case Some(s) =>
         (match FirstMatch(ms, false, filename[s..], 0)
          case Some(i) => Chosen(i)
          case None => Failed(-ENOPROTOOPT)))
  }

  /** A chosen muxer is the first one whose name is the given name, or, with
      no name, the first whose extension is the file's extension; failure
      to match is `-ENOPROTOOPT`, and a file without extension is `-1`. */
  lemma SelectMeaning(ms: seq<Muxer>, name: Option<string>, filename: string)
    ensures name.Some? ==> match Select(ms, name, filename)
      case Chosen(i) => i < |ms| && ms[i].name == name.value && forall j :: 0 <= j < i ==> ms[j].name != name.value
      case Failed(code) => code == -ENOPROTOOPT && forall j :: 0 <= j < |ms| ==> ms[j].name != name.value
    ensures name.None? && Extension(filename).None? ==> Select(ms, name, filename) == Failed(-1)
    ensures name.None? && Extension(filename).Some? ==>
      var ext := filename[Extension(filename).value..];
      match Select(ms, name, filename)
      case Chosen(i) => i < |ms| && ms[i].extension == ext && forall j :: 0 <= j < i ==> ms[j].extension != ext
      case Failed(code) => code == -ENOPROTOOPT && forall j :: 0 <= j < |ms| ==> ms[j].extension != ext
  {
    if name.Some? {
      var r := FirstMatch(ms, true, name.value, 0);
      if r.Some? {
        forall j | 0 <= j < r.value ensures ms[j].name != name.value {
          assert Key(ms[j], true) != name.value;
        }
      } else {
        forall j | 0 <= j < |ms| ensures ms[j].name != name.value {
          assert Key(ms[j], true) != name.value;
        }
      }
    } else if Extension(filename).Some? {
      var ext := filename[Extension(filename).value..];
      var r := FirstMatch(ms, false, ext, 0);
      if r.Some? {
        forall j | 0 <= j < r.value ensures ms[j].extension != ext {
          assert Key(ms[j], false) != ext;
        }
      } else {
        forall j | 0 <= j < |ms| ensures ms[j].extension != ext {
          assert Key(ms[j], false) != ext;
        }
      }
    }
  }

  // ---------------------------------------------------------------------------
  // find_extension

  /** The characters the scan walks back over: ASCII letters and digits. */
  predicate IsAlnum(ch: char)
  {
    ('a' <= ch <= 'z') || ('A' <= ch <= 'Z') || ('0' <= ch <= '9')
  }

  /** Where the maximal trailing run of letters and digits begins. */
  function RunStart(f: string): (s: nat)
    ensures s <= |f|
    ensures forall i :: s <= i < |f| ==> IsAlnum(f[i])
    ensures s > 0 ==> !IsAlnum(f[s - 1])
  {
    if |f| == 0 || !IsAlnum(f[|f| - 1]) then |f| else RunStart(f[..|f| - 1])
  }

  /** A position with letters and digits after it and none just before it
      is the start of the trailing run. */
  lemma {:induction false} RunStartUnique(f: string, s: nat)
    requires s <= |f|
    requires forall i :: s <= i < |f| ==> IsAlnum(f[i])
    requires s > 0 ==> !IsAlnum(f[s - 1])
    ensures RunStart(f) == s
  {
    if s < |f| {
      var g := f[..|f| - 1];
      assert forall i :: s <= i < |g| ==> g[i] == f[i];
      assert s > 0 ==> g[s - 1] == f[s - 1];
      RunStartUnique(g, s);
    }
  }

  /** The extension `find_extension` reports, as the index where it begins:
      the trailing run of letters and digits, when it is non-empty and is
      preceded by a `.` that is neither the first character nor right after
      a `/`. */
  function Extension(f: string): (r: Option<nat>)
    ensures |f| == 0 ==> r == None
    ensures r.Some? ==> 2 <= r.value < |f| && f[r.value - 1] == '.' && f[r.value - 2] != '/'
    ensures r.Some? ==> forall i :: r.value <= i < |f| ==> IsAlnum(f[i])
  {
    var s := RunStart(f);
    if 2 <= s < |f| && f[s - 1] == '.' && f[s - 2] != '/' then Some(s) else None
  }

  /** The converse: any such position is the reported extension. */
  lemma ExtensionExact(f: string, s: nat)
    requires 2 <= s < |f| && f[s - 1] == '.' && f[s - 2] != '/'
    requires forall i :: s <= i < |f| ==> IsAlnum(f[i])
    ensures Extension(f) == Some(s)
  {
    RunStartUnique(f, s);
  }

  /** A name made only of letters and digits has no extension. */
  lemma AllAlnumHasNoExtension(f: string)
    requires forall i :: 0 <= i < |f| ==> IsAlnum(f[i])
    ensures Extension(f) == None
  {
    RunStartUnique(f, 0);
  }

  /** A leading dot, a dot right after a slash and a trailing dot give no
      extension; an ordinary name gives the letters after its last dot. */
  lemma ExtensionExamples()
    ensures Extension(".yuv") == None
    ensures Extension("a/.yuv") == None
    ensures Extension("a.") == None
    ensures Extension("out.yuv") == Some(4)
    ensures Extension("clip.y4m") == Some(5)
  {
    RunStartUnique(".yuv", 1);
    RunStartUnique("a/.yuv", 3);
    RunStartUnique("a.", 2);
    ExtensionExact("out.yuv", 4);
    ExtensionExact("clip.y4m", 5);
  }

  /** `find_extension` with the scan stopped at the start of the string: it
      walks back from the last character over letters and digits. */
  method FindExtension(f: string) returns (r: Option<nat>)
    ensures r == Extension(f)
  {
    if |f| == 0 {
      return None;
    }
    var step := |f| - 1;
    while step >= 0 && IsAlnum(f[step])
      invariant -1 <= step < |f|
      invariant forall i :: step < i < |f| ==> IsAlnum(f[i])
    {
      step := step - 1;
    }
    RunStartUnique(f, step + 1);
    r := if step < |f| - 1 && step > 0 && f[step] == '.' && f[step - 1] != '/' then Some(step + 1) else None;
  }

  /** Where the scan as written stops: at a character that is not a letter
      or digit, or, having walked past the first character, at a read
      before the string. */
  datatype Scan = StoppedAt(step: nat) | ReadBeforeStart

  /** The scan loop as written, with no lower bound on `step`. */
  function UnguardedScan(f: string, step: int): Scan
    requires step < |f|
    decreases step + 1
  {
    if step < 0 then ReadBeforeStart
    else if IsAlnum(f[step]) then UnguardedScan(f, step - 1)
    else StoppedAt(step)
  }

  /** The unguarded scan stays inside a non-empty string exactly when the
      string has a character other than a letter or digit, and then stops
      where the guarded scan does. */
  lemma {:induction false} UnguardedScanOutcome(f: string, step: int)
    requires step < |f|
    ensures UnguardedScan(f, step) == ReadBeforeStart <==> forall i :: 0 <= i <= step ==> IsAlnum(f[i])
    ensures UnguardedScan(f, step).StoppedAt? ==> StopsAt(f, step, UnguardedScan(f, step).step)
    ensures step == |f| - 1 && UnguardedScan(f, step).StoppedAt? ==> UnguardedScan(f, step).step + 1 == RunStart(f)
    decreases step + 1
  {
    if step >= 0 {
      UnguardedScanOutcome(f, step - 1);
      var r := UnguardedScan(f, step);
      if r.StoppedAt? && step == |f| - 1 {
        RunStartUnique(f, r.step + 1);
      }
    }
  }

  /** The scan from `step` back to `p` passed only letters and digits and
      stopped on something else. */
  ghost predicate StopsAt(f: string, step: int, p: nat)
    requires step < |f|
  {
    p <= step && !IsAlnum(f[p]) && forall i :: p < i <= step ==> IsAlnum(f[i])
  }

  /** "yuv" is a file name on which the unguarded scan reads before the
      string. */
  lemma UnguardedScanReadsBeforeStart()
    ensures UnguardedScan("yuv", 2) == ReadBeforeStart
    ensures Extension("yuv") == None
  {
    AllAlnumHasNoExtension("yuv");
  }
}

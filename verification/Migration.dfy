/**
 * Moving legacy per-directory session files into the flat session root (`migrations.ts`).
 *
 * The session root is a map from places to entries. Reads, renames and removals fail when the
 * environment says so, and directory listings come in any order.
 */
module Migration {
  import Numerals

  type Bytes = seq<bv8>

  /** `Other` stands for whatever is not a regular file; nothing here opens or moves it. */
  datatype Entry = File(bytes: Bytes) | Other(what: nat)

  datatype Place = Root(name: string) | In(dir: string, name: string)

  type Files = map<Place, Entry>

  /** Which reads, renames and directory removals fail, and what file contents mean. */
  datatype Disk = Disk(readFails: nat -> bool, renameFails: nat -> bool, removeFails: nat -> bool,
                       isSession: Bytes -> bool, decode: Bytes -> string)
  {
    ghost predicate Readable() {
      forall n :: !readFails(n)
    }

    ghost predicate Sound() {
      Readable() && forall n :: !renameFails(n) && !removeFails(n)
    }

    /** `filesHaveSameContent`, when both files can be read. */
    predicate Same(a: Entry, b: Entry) {
      a.File? && b.File? && |a.bytes| == |b.bytes| && decode(a.bytes) == decode(b.bytes)
    }

    predicate Session(e: Entry) {
      e.File? && isSession(e.bytes)
    }
  }

  // ----- names -----

  const JSONL := ".jsonl"

  predicate IsJsonl(name: string) {
    |name| >= |JSONL| && name[|name| - |JSONL|..] == JSONL
  }

  /** `^--.+--$`, where the dot stands for any character but a line terminator. */
  predicate IsLegacy(name: string) {
    && |name| >= 5 && name[..2] == "--" && name[|name| - 2..] == "--"
    && forall k :: 2 <= k < |name| - 2 ==> name[k] !in "\n\r\U{2028}\U{2029}"
  }

  /** A legacy directory's name is something between two pairs of dashes. */
  lemma LegacyNames(name: string)
    ensures IsLegacy(name) <==>
              exists middle: string :: |middle| > 0 && name == "--" + middle + "--" && forall c :: c in middle ==> c !in "\n\r\U{2028}\U{2029}"
  {
    if IsLegacy(name) {
      var middle := name[2..|name| - 2];
      assert name == "--" + middle + "--";
    }
    if middle: string :| |middle| > 0 && name == "--" + middle + "--" && forall c :: c in middle ==> c !in "\n\r\U{2028}\U{2029}" {
      assert name[..2] == "--" && name[|name| - 2..] == "--" && name[2..|name| - 2] == middle;
      assert forall k :: 2 <= k < |name| - 2 ==> name[k] == middle[k - 2];
    }
  }

  /** A numbered name goes between the stem and the extension. */
  lemma NumberedNames(stem: string, n: nat)
    ensures IsJsonl(stem + ".jsonl") && Base(stem + ".jsonl") == stem
    ensures Candidate(stem + ".jsonl", n) == stem + "-" + Numerals.Decimal(n) + ".jsonl"
    ensures IsJsonl(Candidate(stem + ".jsonl", n))
  {
    hide Numerals.Decimal;
    var name := stem + ".jsonl";
    assert name[|name| - 6..] == ".jsonl" && name[..|name| - 6] == stem;
    var c := Candidate(name, n);
    assert c[|c| - 6..] == ".jsonl";
  }

  function Base(name: string): string {
    if IsJsonl(name) then name[..|name| - |JSONL|] else name
  }

  function Candidate(name: string, n: nat): string {
    Base(name) + "-" + Numerals.Decimal(n) + JSONL
  }

  lemma CandidatesDiffer(name: string, m: nat, n: nat)
    requires Candidate(name, m) == Candidate(name, n)
    ensures m == n
  {
    var front := Base(name) + "-";
    var a, b := Candidate(name, m), Candidate(name, n);
    assert a == front + (Numerals.Decimal(m) + JSONL) && b == front + (Numerals.Decimal(n) + JSONL);
    assert a[|front|..|a| - |JSONL|] == Numerals.Decimal(m);
    assert b[|front|..|b| - |JSONL|] == Numerals.Decimal(n);
    Numerals.Injective(m, n);
  }

  // ----- what the files hold together -----

  function Without(files: Files, p: Place): (rest: Files)
    requires p in files
    ensures forall q :: q in rest <==> q in files && q != p
    ensures forall q :: q in rest ==> rest[q] == files[q]
    ensures |rest| < |files|
  {
    assert |files.Keys - {p}| < |files.Keys|;
    assert (files - {p}).Keys == files.Keys - {p};
    files - {p}
  }

  ghost function Pick(files: Files): (p: Place)
    requires |files| > 0
    ensures p in files
  {
    assert |files.Keys| > 0;
    var p :| p in files.Keys;
    p
  }

  ghost function Contents(files: Files): multiset<Entry>
    decreases |files|
  {
    if |files| == 0 then multiset{}
    else Contents(Without(files, Pick(files))) + multiset{files[Pick(files)]}
  }

  lemma {:induction false} ContentsWithout(files: Files, q: Place)
    requires q in files
    ensures Contents(files) == Contents(Without(files, q)) + multiset{files[q]}
    decreases |files|
  {
    var p := Pick(files);
    assert Contents(files) == Contents(Without(files, p)) + multiset{files[p]};
    hide Without, Pick, Contents;
    if p != q {
      var less := Without(Without(files, p), q);
      assert less == Without(Without(files, q), p);
      ContentsWithout(Without(files, p), q);
      ContentsWithout(Without(files, q), p);
      assert Contents(files) == Contents(less) + multiset{files[q]} + multiset{files[p]};
    }
  }

  function Moved(files: Files, from: Place, to: Place): Files
    requires from in files
  {
    Without(files, from)[to := files[from]]
  }

  /** A rename to a name that is not in use loses and repeats nothing. */
  lemma MoveConserves(files: Files, from: Place, to: Place)
    requires from in files && to !in files
    ensures Contents(Moved(files, from, to)) == Contents(files)
  {
    hide Without, Contents;
    ContentsWithout(files, from);
    ContentsWithout(Moved(files, from, to), to);
    assert Without(Moved(files, from, to), to) == Without(files, from);
  }

  // ----- what a migration may do -----

  /** `to` is where a legacy session file of the given name may go. */
  ghost predicate TargetOf(to: string, name: string) {
    to == name || exists n :: to == Candidate(name, n)
  }

  /** A new root entry is a session that was in a legacy directory, under its own name or a numbered one. */
  ghost predicate CameFrom(disk: Disk, was: Files, name: string, e: Entry) {
    && disk.Session(e)
    && exists d, f :: In(d, f) in was && was[In(d, f)] == e && IsLegacy(d) && IsJsonl(f) && TargetOf(name, f)
  }

  /** Everything that holds from before a run (or part of one) to after it, whatever fails. */
  ghost predicate Conserved(disk: Disk, was: Files, now: Files) {
    && Contents(now) == Contents(was)
    && (forall p :: p in was && p in now ==> now[p] == was[p])
    && (forall p :: p in was && p !in now ==> p.In? && IsLegacy(p.dir) && IsJsonl(p.name) && disk.Session(was[p]))
    && (forall p :: p in now && p !in was ==> p.Root? && CameFrom(disk, was, p.name, now[p]))
  }

  lemma ConservedTwice(disk: Disk, was: Files, mid: Files, now: Files)
    requires Conserved(disk, was, mid) && Conserved(disk, mid, now)
    ensures Conserved(disk, was, now)
  {
    hide Contents, IsLegacy, IsJsonl;
    forall p | p in now && p !in was
      ensures p.Root? && CameFrom(disk, was, p.name, now[p])
    {
      if p !in mid {
        var d, f :| In(d, f) in mid && mid[In(d, f)] == now[p] && IsLegacy(d) && IsJsonl(f) && TargetOf(p.name, f);
        assert In(d, f) in was;
      }
    }
  }

  lemma MoveIsConserved(disk: Disk, was: Files, d: string, f: string, to: string)
    requires In(d, f) in was && Root(to) !in was && disk.Session(was[In(d, f)])
    requires IsLegacy(d) && IsJsonl(f) && TargetOf(to, f)
    ensures Conserved(disk, was, Moved(was, In(d, f), Root(to)))
  {
    hide Contents, TargetOf, IsLegacy, IsJsonl;
    MoveConserves(was, In(d, f), Root(to));
  }

  /** The session can be found in the root. */
  ghost predicate Found(disk: Disk, files: Files, e: Entry) {
    exists n :: Root(n) in files && disk.Same(files[Root(n)], e)
  }

  /** Every session that was in a directory can be found in the root. */
  ghost predicate AllFound(disk: Disk, was: Files, now: Files, d: string) {
    forall f :: IsJsonl(f) && In(d, f) in was && disk.Session(was[In(d, f)]) ==> Found(disk, now, was[In(d, f)])
  }

  lemma FoundStays(disk: Disk, was: Files, now: Files, e: Entry)
    requires Conserved(disk, was, now) && Found(disk, was, e)
    ensures Found(disk, now, e)
  {
    var n :| Root(n) in was && disk.Same(was[Root(n)], e);
    assert Root(n) in now;
  }

  /** There is nothing to do for this file: it is no session, or the root has it under its own name. */
  predicate Settled(disk: Disk, files: Files, d: string, f: string) {
    In(d, f) in files ==> disk.Session(files[In(d, f)]) ==> Root(f) in files && disk.Same(files[In(d, f)], files[Root(f)])
  }

  predicate Occupied(files: Files, d: string) {
    exists p :: p in files && p.In? && p.dir == d
  }

  ghost predicate DirSettled(disk: Disk, files: Files, d: string) {
    forall f :: IsJsonl(f) ==> Settled(disk, files, d, f)
  }

  lemma SettledStays(disk: Disk, was: Files, now: Files, d: string, f: string)
    requires Conserved(disk, was, now) && Settled(disk, was, d, f)
    ensures Settled(disk, now, d, f)
  {
    if In(d, f) in now && disk.Session(now[In(d, f)]) {
      assert In(d, f) in was;
      assert Root(f) in now;
    }
  }

  class SessionRoot {
    const disk: Disk
    var files: Files
    var dirs: set<string>
    var moment: nat

    /** Directories have names of their own, and only legacy ones are ever removed. */
    ghost predicate Valid()
      reads this
    {
      && (forall p :: p in files && p.In? ==> p.dir in dirs)
      && (forall p :: p in files && p.Root? ==> p.name !in dirs)
    }

    /** A second run would find nothing to do. */
    ghost predicate AllSettled()
      reads this
    {
      forall d :: d in dirs && IsLegacy(d) ==> Occupied(files, d) && DirSettled(disk, files, d)
    }

    constructor (disk: Disk, files: Files, dirs: set<string>)
      requires forall p :: p in files && p.In? ==> p.dir in dirs
      requires forall p :: p in files && p.Root? ==> p.name !in dirs
      ensures Valid() && this.disk == disk && this.files == files && this.dirs == dirs
    {
      this.disk, this.files, this.dirs := disk, files, dirs;
      moment := 0;
    }

    method Read() returns (ok: bool)
      modifies this`moment
      ensures disk.Readable() ==> ok
    {
      ok := !disk.readFails(moment);
      moment := moment + 1;
    }

    predicate Exists(name: string)
      reads this
    {
      Root(name) in files || name in dirs
    }

    function RootNames(): set<string>
      reads this
    {
      (set p | p in files && p.Root? :: p.name) + dirs
    }

    /** `n` is the first number that makes a free name. */
    ghost predicate FirstFree(at: Files, file: string, n: nat)
      reads this`dirs
    {
      && !(Root(Candidate(file, n)) in at || Candidate(file, n) in dirs)
      && forall k: nat :: 1 <= k < n ==> Root(Candidate(file, k)) in at || Candidate(file, k) in dirs
    }

    /** The file now has the first free numbered name in the root. */
    ghost predicate SetApart(was: Files, d: string, f: string)
      requires In(d, f) in was
      reads this
    {
      exists n: nat :: n >= 1 && FirstFree(was, f, n) && files == Moved(was, In(d, f), Root(Candidate(f, n)))
    }

    /** `uniqueSessionRootPath`: the first numbered name that is free. It ends, for names in use are finitely many. */
    method UniqueName(file: string) returns (name: string)
      ensures !Exists(name)
      ensures exists n: nat :: n >= 1 && name == Candidate(file, n) && FirstFree(files, file, n)
    {
      hide Candidate;
      var n: nat := 1;
      ghost var taken: set<string> := {};
      while Exists(Candidate(file, n))
        invariant n >= 1 && taken <= RootNames() && |taken| == n - 1
        invariant forall k: nat :: 1 <= k < n ==> Exists(Candidate(file, k))
        invariant forall t :: t in taken ==> exists k: nat :: k < n && t == Candidate(file, k)
        decreases |RootNames() - taken|
      {
        ghost var next := Candidate(file, n);
        assert next !in taken by {
          forall k: nat | next == Candidate(file, k)
            ensures k >= n
          {
            CandidatesDiffer(file, k, n);
          }
        }
        assert next in RootNames() - taken by {
          assert Root(next) in files ==> Root(next).name in RootNames();
        }
        assert RootNames() - (taken + {next}) == RootNames() - taken - {next};
        taken := taken + {next};
        n := n + 1;
      }
      name := Candidate(file, n);
    }

    /** `filesHaveSameContent`: a file that cannot be read counts as different. */
    method SameContent(a: Place, b: Place) returns (same: bool)
      requires a in files
      modifies this`moment
      ensures same ==> b in files && disk.Same(files[a], files[b])
      ensures same ==> b in files && files[a].File? && files[b].File?
                       && |files[a].bytes| == |files[b].bytes| && disk.decode(files[a].bytes) == disk.decode(files[b].bytes)
      ensures disk.Readable() && b in files && files[a].File? && files[b].File? ==>
                (same <==> |files[a].bytes| == |files[b].bytes| && disk.decode(files[a].bytes) == disk.decode(files[b].bytes))
    {
      var ok := Read();
      same := ok && b in files && disk.Same(files[a], files[b]);
    }

    /** One file of a legacy directory. */
    method MigrateFile(d: string, f: string)
      requires Valid() && In(d, f) in files && IsLegacy(d) && IsJsonl(f)
      modifies this`files, this`moment
      ensures Valid() && Conserved(disk, old(files), files)
      ensures forall p :: p in old(files) && p != In(d, f) ==> p in files
      ensures In(d, f) in files ==> files == old(files)
      ensures In(d, f) !in files && !old(Exists(f)) ==> files == Moved(old(files), In(d, f), Root(f))
      ensures In(d, f) !in files && old(Exists(f)) ==> SetApart(old(files), d, f)
      ensures disk.Sound() ==> Settled(disk, files, d, f)
      ensures disk.Sound() && disk.Session(old(files)[In(d, f)]) ==> Found(disk, files, old(files)[In(d, f)])
      ensures disk.Readable() && old(Settled(disk, files, d, f)) ==> files == old(files)
    {
      hide Contents, IsLegacy, IsJsonl;
      var source := In(d, f);
      var ok := Read();
      if !(ok && disk.Session(files[source])) {
        return;
      }
      var name := f;
      if Exists(f) {
        var same := SameContent(source, Root(f));
        if same {
          assert disk.Same(files[Root(f)], files[source]);
          return;
        }
        name := UniqueName(f);
      }
      if disk.renameFails(moment) {
        moment := moment + 1;
        return;
      }
      MoveIsConserved(disk, files, d, f, name);
      files := Moved(files, source, Root(name));
      assert disk.Same(files[Root(name)], old(files)[source]);
    }

    /** One legacy directory: its files, then the directory itself when it is empty. */
    method MigrateDir(d: string)
      requires Valid() && IsLegacy(d) && d in dirs
      modifies this
      ensures Valid() && Conserved(disk, old(files), files)
      ensures old(dirs) - {d} <= dirs <= old(dirs)
      ensures d !in dirs ==> !Occupied(files, d)
      ensures forall p :: p in old(files) && !(p.In? && p.dir == d) ==> p in files
      ensures disk.Sound() ==> DirSettled(disk, files, d) && (d in dirs ==> Occupied(files, d))
      ensures disk.Sound() ==> AllFound(disk, old(files), files, d)
      ensures disk.Readable() && old(Occupied(files, d)) && old(DirSettled(disk, files, d)) ==> files == old(files) && dirs == old(dirs)
    {
      var ok := Read();
      if !ok {
        return;
      }
      MigrateFiles(d);
      ok := Read();
      if ok && !Occupied(files, d) && !disk.removeFails(moment) {
        dirs := dirs - {d};
      }
      moment := moment + 1;
    }

    method MigrateFiles(d: string)
      requires Valid() && IsLegacy(d)
      modifies this`files, this`moment
      ensures Valid() && Conserved(disk, old(files), files)
      ensures forall p :: p in old(files) && !(p.In? && p.dir == d) ==> p in files
      ensures disk.Sound() ==> DirSettled(disk, files, d)
      ensures disk.Sound() ==> AllFound(disk, old(files), files, d)
      ensures disk.Readable() && old(DirSettled(disk, files, d)) ==> files == old(files)
    {
      hide Contents, IsLegacy, IsJsonl, CameFrom, SetApart, Moved;
      var todo := set p | p in files && p.In? && p.dir == d && IsJsonl(p.name) :: p.name;
      ghost var all := todo;
      while todo != {}
        invariant Valid() && Conserved(disk, old(files), files) && todo <= all
        invariant forall p :: p in old(files) && !(p.In? && p.dir == d && p.name !in todo) ==> p in files
        invariant disk.Sound() ==> forall f :: f in all - todo ==> Settled(disk, files, d, f)
        invariant disk.Sound() ==> forall f :: f in all - todo && disk.Session(old(files)[In(d, f)]) ==> Found(disk, files, old(files)[In(d, f)])
        invariant disk.Readable() && old(DirSettled(disk, files, d)) ==> files == old(files)
        decreases todo
      {
        var f :| f in todo;
        ghost var mid := files;
        MigrateFile(d, f);
        ConservedTwice(disk, old(files), mid, files);
        if disk.Sound() {
          forall g | g in all - todo
            ensures Settled(disk, files, d, g)
            ensures disk.Session(old(files)[In(d, g)]) ==> Found(disk, files, old(files)[In(d, g)])
          {
            SettledStays(disk, mid, files, d, g);
            if disk.Session(old(files)[In(d, g)]) {
              FoundStays(disk, mid, files, old(files)[In(d, g)]);
            }
          }
        }
        todo := todo - {f};
      }
    }

    /** `migrateLegacySessionDirsToSessionRoot`. */
    method Migrate()
      requires Valid()
      modifies this
      ensures Valid() && Conserved(disk, old(files), files) && dirs <= old(dirs)
      ensures forall d :: d in old(dirs) && d !in dirs ==> IsLegacy(d) && !Occupied(files, d)
      ensures disk.Sound() ==> AllSettled()
      ensures disk.Sound() ==> forall d :: d in old(dirs) && IsLegacy(d) ==> AllFound(disk, old(files), files, d)
      ensures disk.Readable() && old(AllSettled()) ==> files == old(files) && dirs == old(dirs)
    {
      hide Contents, IsLegacy, IsJsonl, CameFrom, SetApart, Moved;
      var ok := Read();
      if !ok {
        return;
      }
      var todo := set d | d in dirs && IsLegacy(d);
      ghost var all := todo;
      while todo != {}
        invariant Valid() && Conserved(disk, old(files), files) && todo <= dirs <= old(dirs) && todo <= all
        invariant forall d :: d in old(dirs) && d !in dirs ==> IsLegacy(d) && !Occupied(files, d)
        invariant forall p :: p in old(files) && !(p.In? && p.dir in all && p.dir !in todo) ==> p in files
        invariant disk.Sound() ==> forall d :: d in all - todo ==> DirSettled(disk, files, d) && (d in dirs ==> Occupied(files, d))
        invariant disk.Sound() ==> forall d :: d in all - todo ==> AllFound(disk, old(files), files, d)
        invariant disk.Readable() && old(AllSettled()) ==> files == old(files) && dirs == old(dirs)
        decreases todo
      {
        var d :| d in todo;
        ghost var mid := files;
        MigrateDir(d);
        ConservedTwice(disk, old(files), mid, files);
        if disk.Sound() {
          forall g, f | g in all - todo && IsJsonl(f)
            ensures Settled(disk, files, g, f)
            ensures In(g, f) in old(files) && disk.Session(old(files)[In(g, f)]) ==> Found(disk, files, old(files)[In(g, f)])
          {
            SettledStays(disk, mid, files, g, f);
            if In(g, f) in old(files) && disk.Session(old(files)[In(g, f)]) {
              FoundStays(disk, mid, files, old(files)[In(g, f)]);
            }
          }
        }
        todo := todo - {d};
      }
    }

    /** When nothing fails, a second run changes nothing. */
    method MigrateTwice() returns (ghost once: Files, ghost left: set<string>)
      requires Valid() && disk.Sound()
      modifies this
      ensures files == once && dirs == left && Conserved(disk, old(files), once) && AllSettled()
    {
      Migrate();
      once, left := files, dirs;
      Migrate();
    }
  }
}

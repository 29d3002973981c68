/**
  The per-project memory store. A project's memory directory holds one sub-directory per
  category; each memory is a JSON file in its category's directory, and a metadata file
  records how many memories are readable. The directory contents are modelled as a map from
  sub-directory name to its listing (in `read_dir` order). A listed file carries what reading
  it gives: an I/O error, or what parsing its text as a memory yields; an entry the listing
  itself could not produce is an entry that failed. A directory that cannot be listed at all
  is one whose first entry failed.
*/
module Memory {
  import opened Results
  import opened Strings
  import Settings

  datatype MemoryCategory = Rule | Preference | Pattern | Context

  /** A stored memory; times are instants on one clock, later is larger. */
  datatype MemoryEntry = MemoryEntry(id: string, content: string, category: MemoryCategory, createdAt: int, updatedAt: int)

  /** The metadata file (its last-organised timestamp is not modelled). */
  datatype MemoryMetadata = MemoryMetadata(projectPath: string, totalEntries: nat, version: string)

  /** A listed entry: a file with its name and what reading it gives (`Err` when its text
      cannot be read, then the memory it parses to, `None` when it does not parse), or an
      entry whose listing failed. */
  datatype DirEntry = DirEntry(fileName: string, contents: Result<Option<MemoryEntry>, string>) | EntryFailed(error: string)

  /** The category sub-directories, in the order the store creates and scans them. */
  const CategoryDirs: seq<string> := ["rules", "preferences", "patterns", "context"]

  /** The sub-directory a category's memories are saved in. */
  function CategoryDir(c: MemoryCategory): (r: string)
    ensures r in CategoryDirs
  {
    match c
    case Rule => "rules"
    case Preference => "preferences"
    case Pattern => "patterns"
    case Context => "context"
  }

  /** Each category has its own directory, and every scanned directory belongs to a category. */
  lemma CategoryDirBijective(c1: MemoryCategory, c2: MemoryCategory, d: string)
    ensures CategoryDir(c1) == CategoryDir(c2) ==> c1 == c2
    ensures d in CategoryDirs <==> exists c :: CategoryDir(c) == d
  {
    if d in CategoryDirs {
      var c := if d == "rules" then Rule else if d == "preferences" then Preference
               else if d == "patterns" then Pattern else Context;
      assert CategoryDir(c) == d;
    }
  }

  /** `Path::extension() == Some("json")`: a name ending in ".json" with something before
      the dot (".json" alone is a hidden file without an extension). */
  predicate IsJsonFile(name: string) {
    |name| > 5 && EndsWith(name, ".json")
  }

  /** The entry is a ".json" file that reads and parses to `m`. */
  predicate Yields(e: DirEntry, m: MemoryEntry) {
    e.DirEntry? && IsJsonFile(e.fileName) && e.contents == Ok(Some(m))
  }

  /** The entry is a ".json" file that reads and parses. */
  predicate YieldsSome(e: DirEntry) {
    e.DirEntry? && IsJsonFile(e.fileName) && e.contents.Ok? && e.contents.value.Some?
  }

  /** The memories a directory listing yields: its ".json" files that parse, in listing order. */
  function Readable(entries: seq<DirEntry>): seq<MemoryEntry> {
    if entries == [] then []
    else
      var last := entries[|entries| - 1];
      Readable(entries[..|entries| - 1]) + (if YieldsSome(last) then [last.contents.value.value] else [])
  }

  /** The error scanning an entry ends the listing with: the listing's own failure, or a
      ".json" file whose text cannot be read (other files are not read). */
  function EntryError(e: DirEntry): (r: Option<string>)
    ensures r.None? ==> e.DirEntry? && (IsJsonFile(e.fileName) ==> e.contents.Ok?)
  {
    match e
    case EntryFailed(error) => Some(error)
    case DirEntry(name, contents) => if IsJsonFile(name) && contents.Err? then Some(contents.error) else None
  }

  /** The first error of a listing, in listing order; `None` when every entry scans. */
  function FirstError(entries: seq<DirEntry>): (r: Option<string>)
    ensures r.None? <==> forall k :: 0 <= k < |entries| ==> EntryError(entries[k]).None?
  {
    if entries == [] then None
    else
      var init := entries[..|entries| - 1];
      assert forall k :: 0 <= k < |init| ==> init[k] == entries[k];
      if FirstError(init).Some? then FirstError(init) else EntryError(entries[|entries| - 1])
  }

  /** A memory is readable exactly when some ".json" file of the listing parses to it. */
  lemma {:induction false} ReadableMember(entries: seq<DirEntry>, m: MemoryEntry)
    ensures m in Readable(entries) <==> exists k :: 0 <= k < |entries| && Yields(entries[k], m)
  {
    if entries != [] {
      var init := entries[..|entries| - 1];
      ReadableMember(init, m);
      if m in Readable(entries) && m !in Readable(init) {
        assert Yields(entries[|entries| - 1], m);
      }
      if m !in Readable(entries) {
        assert forall k :: 0 <= k < |init| ==> init[k] == entries[k];
      }
    }
  }

  /** The memories of the listed directories, directory by directory; a directory that does
      not exist is skipped. */
  function CollectAll(dirs: map<string, seq<DirEntry>>, names: seq<string>): seq<MemoryEntry> {
    if names == [] then []
    else
      var last := names[|names| - 1];
      CollectAll(dirs, names[..|names| - 1]) + (if last in dirs then Readable(dirs[last]) else [])
  }

  /** The first error met scanning the listed directories in order; a directory that does
      not exist is skipped. */
  function CollectError(dirs: map<string, seq<DirEntry>>, names: seq<string>): Option<string> {
    if names == [] then None
    else
      var last := names[|names| - 1];
      var init := CollectError(dirs, names[..|names| - 1]);
      if init.Some? then init else if last in dirs then FirstError(dirs[last]) else None
  }

  /** Replacing one directory's listing by one with the same first error leaves the first
      error of the whole scan as it was. */
  lemma {:induction false} CollectErrorReplace(dirs: map<string, seq<DirEntry>>, names: seq<string>, d: string, es: seq<DirEntry>)
    requires d in dirs && FirstError(es) == FirstError(dirs[d])
    ensures CollectError(dirs[d := es], names) == CollectError(dirs, names)
  {
    if names != [] {
      CollectErrorReplace(dirs, names[..|names| - 1], d, es);
    }
  }

  /** Replacing one directory's listing changes the collected count by the change in that
      directory's readable count, and nothing when the directory is not scanned. */
  lemma {:induction false} CollectAllReplace(dirs: map<string, seq<DirEntry>>, names: seq<string>, d: string, es: seq<DirEntry>)
    requires Distinct(names) && d in dirs
    ensures d in names ==>
      |CollectAll(dirs[d := es], names)| + |Readable(dirs[d])| == |CollectAll(dirs, names)| + |Readable(es)|
    ensures d !in names ==> CollectAll(dirs[d := es], names) == CollectAll(dirs, names)
  {
    if names != [] {
      var init := names[..|names| - 1];
      assert forall i, j :: 0 <= i < j < |init| ==> init[i] == names[i] && init[j] == names[j];
      CollectAllReplace(dirs, init, d, es);
      if names[|names| - 1] == d {
        assert d !in init by {
          forall k | 0 <= k < |init| ensures init[k] != d {
            assert init[k] == names[k];
          }
        }
      }
      assert d in names ==> d in init || names[|names| - 1] == d;
    }
  }

  /** Listings sorted newest first. */
  predicate NewestFirst(s: seq<MemoryEntry>) {
    forall i, j :: 0 <= i < j < |s| ==> s[i].createdAt >= s[j].createdAt
  }

  /** Inserts `x` in front of the first entry no newer than it (so earlier entries of equal
      time stay in front, as the standard library's stable sort keeps them). */
  function InsertNewest(x: MemoryEntry, t: seq<MemoryEntry>): (r: seq<MemoryEntry>)
    requires NewestFirst(t)
    ensures NewestFirst(r)
    ensures multiset(r) == multiset(t) + multiset{x}
    ensures r[0] == x || (t != [] && r[0] == t[0])
  {
    if t == [] || t[0].createdAt <= x.createdAt then
      assert forall k :: 0 <= k < |t| ==> t[0].createdAt >= t[k].createdAt;
      [x] + t
    else
      var rest := InsertNewest(x, t[1..]);
      assert t == [t[0]] + t[1..];
      assert t[0].createdAt >= rest[0].createdAt;
      [t[0]] + rest
  }

  /** `sort_by(|a, b| b.created_at.cmp(&a.created_at))`: the same memories, newest first. */
  function SortNewestFirst(s: seq<MemoryEntry>): (r: seq<MemoryEntry>)
    ensures NewestFirst(r)
    ensures multiset(r) == multiset(s)
    ensures |r| == |s|
  {
    if s == [] then []
    else
      assert s == [s[0]] + s[1..];
      InsertNewest(s[0], SortNewestFirst(s[1..]))
  }

  /** A listing that is already newest first is left as it is. */
  lemma {:induction false} SortKeepsSorted(s: seq<MemoryEntry>)
    requires NewestFirst(s)
    ensures SortNewestFirst(s) == s
  {
    if s != [] {
      NewestFirstTail(s);
      SortKeepsSorted(s[1..]);
      assert s == [s[0]] + s[1..];
    }
  }

  /** `e` when it was created at time `t`, otherwise nothing. */
  function TimedAt(e: MemoryEntry, t: int): seq<MemoryEntry> {
    if e.createdAt == t then [e] else []
  }

  /** The memories created at time `t`, in their order in `s`. */
  function CreatedAt(s: seq<MemoryEntry>, t: int): (r: seq<MemoryEntry>)
    ensures forall e :: e in r <==> e in s && e.createdAt == t
  {
    if s == [] then []
    else
      assert forall e :: e in s <==> e == s[0] || e in s[1..];
      TimedAt(s[0], t) + CreatedAt(s[1..], t)
  }

  lemma CreatedAtCons(e: MemoryEntry, s: seq<MemoryEntry>, t: int)
    ensures CreatedAt([e] + s, t) == TimedAt(e, t) + CreatedAt(s, t)
  {
    assert ([e] + s)[0] == e && ([e] + s)[1..] == s;
  }

  /** A sorted listing stays sorted without its first memory. */
  lemma NewestFirstTail(s: seq<MemoryEntry>)
    requires NewestFirst(s) && s != []
    ensures NewestFirst(s[1..])
  {
    forall i, j | 0 <= i < j < |s[1..]| ensures s[1..][i].createdAt >= s[1..][j].createdAt {
      assert s[1..][i] == s[i + 1] && s[1..][j] == s[j + 1];
    }
  }

  /** Passing `x` over a strictly newer memory `y` does not reorder memories of one time. */
  lemma PassNewer(x: MemoryEntry, y: MemoryEntry, rest: seq<MemoryEntry>, tail: seq<MemoryEntry>, t: int)
    requires y.createdAt > x.createdAt
    requires CreatedAt(rest, t) == TimedAt(x, t) + CreatedAt(tail, t)
    ensures CreatedAt([y] + rest, t) == TimedAt(x, t) + CreatedAt([y] + tail, t)
  {
    CreatedAtCons(y, rest, t);
    CreatedAtCons(y, tail, t);
    assert TimedAt(y, t) == [] || TimedAt(x, t) == [];
  }

  lemma {:induction false} InsertNewestStable(x: MemoryEntry, s: seq<MemoryEntry>, t: int)
    requires NewestFirst(s)
    ensures CreatedAt(InsertNewest(x, s), t) == TimedAt(x, t) + CreatedAt(s, t)
  {
    if s == [] || s[0].createdAt <= x.createdAt {
      CreatedAtCons(x, s, t);
    } else {
      NewestFirstTail(s);
      InsertNewestStable(x, s[1..], t);
      PassNewer(x, s[0], InsertNewest(x, s[1..]), s[1..], t);
      assert s == [s[0]] + s[1..];
    }
  }

  /** The sort is stable: memories created at the same time come out in their listing order.
      With `NewestFirst` and the permutation this pins `SortNewestFirst` down completely. */
  lemma {:induction false} SortNewestFirstStable(s: seq<MemoryEntry>, t: int)
    ensures CreatedAt(SortNewestFirst(s), t) == CreatedAt(s, t)
  {
    if s != [] {
      SortNewestFirstStable(s[1..], t);
      InsertNewestStable(s[0], SortNewestFirst(s[1..]), t);
      CreatedAtCons(s[0], s[1..], t);
      assert s == [s[0]] + s[1..];
    }
  }

  /** The entry is the listed file `name`. */
  predicate Named(e: DirEntry, name: string) {
    e.DirEntry? && e.fileName == name
  }

  /** A file write: the listed file of that name is replaced, or the file is added at the end. */
  function WriteFile(entries: seq<DirEntry>, name: string, parsed: Option<MemoryEntry>): (r: seq<DirEntry>)
    ensures exists k :: 0 <= k < |r| && r[k] == DirEntry(name, Ok(parsed))
    ensures (forall k :: 0 <= k < |entries| ==> !Named(entries[k], name)) ==> r == entries + [DirEntry(name, Ok(parsed))]
  {
    var written := DirEntry(name, Ok(parsed));
    if entries == [] then
      assert [written][0] == written;
      [written]
    else if Named(entries[0], name) then
      assert ([written] + entries[1..])[0] == written;
      [written] + entries[1..]
    else
      var rest := WriteFile(entries[1..], name, parsed);
      var k :| 0 <= k < |rest| && rest[k] == written;
      assert ([entries[0]] + rest)[k + 1] == written;
      if forall k :: 0 <= k < |entries| ==> !Named(entries[k], name) then
        assert forall k :: 0 <= k < |entries[1..]| ==> !Named(entries[1..][k], name) by {
          forall k | 0 <= k < |entries[1..]| ensures !Named(entries[1..][k], name) {
            assert entries[1..][k] == entries[k + 1];
          }
        }
        assert entries == [entries[0]] + entries[1..];
        [entries[0]] + rest
      else
        [entries[0]] + rest
  }

  /** `normalize_project_path`, with the operating system's canonicalisation of the path
      (relative paths taken from the current directory) as `canonical`. */
  function NormalizeProjectPath(projectPath: string, canonical: Result<string, string>): (r: Result<string, string>)
    ensures canonical.Ok? ==> r == canonical
    ensures canonical.Err? ==> r.Err? && StartsWith(r.error, "项目路径不存在或无法访问: " + projectPath)
  {
    match canonical
    case Ok(p) => Ok(p)
    case Err(e) => Err("项目路径不存在或无法访问: " + projectPath + "\n错误: " + e)
  }

  /** The summary's label for a category. */
  function CategoryLabel(c: MemoryCategory): string {
    match c
    case Rule => "规范"
    case Preference => "偏好"
    case Pattern => "实践"
    case Context => "上下文"
  }

  /** How many of the memories are of category `c`. */
  function CountCategory(ms: seq<MemoryEntry>, c: MemoryCategory): nat {
    if ms == [] then 0
    else CountCategory(ms[..|ms| - 1], c) + (if ms[|ms| - 1].category == c then 1 else 0)
  }

  /** Every memory is counted under exactly one category. */
  lemma {:induction false} CategoryCountsSum(ms: seq<MemoryEntry>)
    ensures CountCategory(ms, Rule) + CountCategory(ms, Preference) + CountCategory(ms, Pattern)
          + CountCategory(ms, Context) == |ms|
  {
    if ms != [] {
      CategoryCountsSum(ms[..|ms| - 1]);
    }
  }

  /** The count of one category never exceeds the total. */
  lemma CountCategoryBound(ms: seq<MemoryEntry>, c: MemoryCategory)
    ensures CountCategory(ms, c) <= |ms|
  {
    CategoryCountsSum(ms);
  }

  /** One line of the recent list: its number from 1, the label and the first 50 characters. */
  function RecentLine(i: nat, m: MemoryEntry): string {
    NatToString(i + 1) + ". [" + CategoryLabel(m.category) + "] " + TakeChars(m.content, 50) + "\n"
  }

  /** The recent list: the first five memories (the newest), numbered from 1. */
  function RecentLines(ms: seq<MemoryEntry>): (r: seq<string>)
    ensures |r| <= 5 && |r| == (if |ms| < 5 then |ms| else 5)
  {
    var n := if |ms| < 5 then |ms| else 5;
    seq(n, i requires 0 <= i < n => RecentLine(i, ms[i]))
  }

  /** Each recent line starts with its number and ends with at most 50 characters of its
      memory's content. */
  lemma RecentLineShape(ms: seq<MemoryEntry>, i: nat)
    requires i < |RecentLines(ms)|
    ensures StartsWith(RecentLines(ms)[i], NatToString(i + 1) + ". [")
    ensures RecentLines(ms)[i] == NatToString(i + 1) + ". [" + CategoryLabel(ms[i].category) + "] "
                                  + TakeChars(ms[i].content, 50) + "\n"
    ensures TakeChars(ms[i].content, 50) <= ms[i].content && |TakeChars(ms[i].content, 50)| <= 50
  {
    var line := RecentLines(ms)[i];
    assert line == NatToString(i + 1) + ". [" + (CategoryLabel(ms[i].category) + "] "
                   + TakeChars(ms[i].content, 50) + "\n");
  }

  function Concat(lines: seq<string>): string {
    if lines == [] then "" else Concat(lines[..|lines| - 1]) + lines[|lines| - 1]
  }

  /** The statistics block for the given per-category counts. */
  function StatsText(rule: nat, preference: nat, pattern: nat, context: nat): string {
    "分类统计:\n"
    + "- 规范规则: " + NatToString(rule) + " 条\n"
    + "- 用户偏好: " + NatToString(preference) + " 条\n"
    + "- 最佳实践: " + NatToString(pattern) + " 条\n"
    + "- 项目上下文: " + NatToString(context) + " 条\n\n"
  }

  /** The statistics block of a listing: a heading and one count line per category. */
  function StatsBlock(ms: seq<MemoryEntry>): string {
    StatsText(CountCategory(ms, Rule), CountCategory(ms, Preference), CountCategory(ms, Pattern), CountCategory(ms, Context))
  }

  /** The summary's first line. */
  function PathLine(projectPath: string): string {
    "项目路径: " + projectPath + "\n"
  }

  /** The summary's second line when there are memories. */
  function TotalLine(ms: seq<MemoryEntry>): string {
    "总记忆条目: " + NatToString(|ms|) + "\n"
  }

  /** The text `get_project_summary` builds from the listing `ms` (newest first). */
  function SummaryText(projectPath: string, ms: seq<MemoryEntry>): string {
    if ms == [] then PathLine(projectPath) + "暂无记忆条目"
    else PathLine(projectPath) + TotalLine(ms) + "\n" + StatsBlock(ms) + "最近记忆:\n" + Concat(RecentLines(ms))
  }

  /** Both forms of the summary open with the project path; only an empty store says it has
      no memories, and otherwise the total is stated right after the path. */
  lemma SummaryOpensWithPath(projectPath: string, ms: seq<MemoryEntry>)
    ensures StartsWith(SummaryText(projectPath, ms), PathLine(projectPath))
    ensures ms == [] <==> SummaryText(projectPath, ms) == PathLine(projectPath) + "暂无记忆条目"
    ensures ms != [] ==> StartsWith(SummaryText(projectPath, ms), PathLine(projectPath) + TotalLine(ms))
  {
    var head := PathLine(projectPath);
    var t := SummaryText(projectPath, ms);
    if ms == [] {
      PrefixOfConcat(head, "暂无记忆条目");
    } else {
      var withTotal := head + TotalLine(ms);
      var s1 := withTotal + "\n";
      var s2 := s1 + StatsBlock(ms);
      var s3 := s2 + "最近记忆:\n";
      assert t == s3 + Concat(RecentLines(ms));
      PrefixOfConcat(withTotal, "\n");
      PrefixExtend(withTotal, s1, StatsBlock(ms));
      PrefixExtend(withTotal, s2, "最近记忆:\n");
      PrefixExtend(withTotal, s3, Concat(RecentLines(ms)));
      PrefixOfConcat(head, TotalLine(ms));
      assert (head + TotalLine(ms))[|head|] == TotalLine(ms)[0] == '总';
      assert t[|head|] == '总';
      assert (head + "暂无记忆条目")[|head|] == '暂';
    }
  }

  lemma PrefixExtend(a: string, b: string, c: string)
    requires a <= b
    ensures a <= b + c
  {
    assert (b + c)[..|b|] == b;
    assert (b + c)[..|a|] == b[..|a|];
  }

  lemma PrefixOfConcat(a: string, b: string)
    ensures a <= a + b
  {
    assert (a + b)[..|a|] == a;
  }

  /** The manager of one project's memory directory. */
  class MemoryManager {
    var projectPath: string
    var dirs: map<string, seq<DirEntry>>
    var metadata: Option<MemoryMetadata>

    /** Every category directory exists. */
    predicate Valid()
      reads this
    {
      forall d :: d in CategoryDirs ==> d in dirs
    }

    /** `MemoryManager::new` once the path is normalised: the memory directory's existing
        contents are `existing` and `existingMetadata`; `initialize_memory_structure` creates
        each missing category directory and, when there is no metadata file, writes one
        holding zero entries. */
    constructor(normalizedPath: string, existing: map<string, seq<DirEntry>>, existingMetadata: Option<MemoryMetadata>)
      ensures Valid()
      ensures projectPath == normalizedPath
      ensures forall d :: d in existing ==> d in dirs && dirs[d] == existing[d]
      ensures forall d :: d in dirs ==> d in existing || (d in CategoryDirs && dirs[d] == [])
      ensures existingMetadata.Some? ==> metadata == existingMetadata
      ensures existingMetadata.None? ==> metadata == Some(MemoryMetadata(normalizedPath, 0, Settings.PackageVersion))
    {
      var created := existing;
      for i := 0 to |CategoryDirs|
        invariant forall d :: d in existing ==> d in created && created[d] == existing[d]
        invariant forall d :: d in created ==> d in existing || (d in CategoryDirs && created[d] == [])
        invariant forall k :: 0 <= k < i ==> CategoryDirs[k] in created
      {
        if CategoryDirs[i] !in created {
          created := created[CategoryDirs[i] := []];
        }
      }
      projectPath := normalizedPath;
      dirs := created;
      metadata := if existingMetadata.None? then Some(MemoryMetadata(normalizedPath, 0, Settings.PackageVersion))
                  else existingMetadata;
    }

    /** `get_all_memories`: every readable memory of the category directories, newest
        first; the first entry that cannot be scanned, in directory and listing order, ends
        the listing with its error. */
    method GetAllMemories() returns (r: Result<seq<MemoryEntry>, string>)
      ensures CollectError(dirs, CategoryDirs).Some? ==> r == Err(CollectError(dirs, CategoryDirs).value)
      ensures CollectError(dirs, CategoryDirs).None? ==> r == Ok(SortNewestFirst(CollectAll(dirs, CategoryDirs)))
      ensures r.Ok? ==> NewestFirst(r.value) && multiset(r.value) == multiset(CollectAll(dirs, CategoryDirs))
    {
      var memories: seq<MemoryEntry> := [];
      for c := 0 to |CategoryDirs|
        invariant memories == CollectAll(dirs, CategoryDirs[..c])
        invariant CollectError(dirs, CategoryDirs[..c]).None?
      {
        assert CategoryDirs[..c + 1][..c] == CategoryDirs[..c];
        var name := CategoryDirs[c];
        if name !in dirs {
          continue;
        }
        var listing := dirs[name];
        ghost var start := memories;
        for k := 0 to |listing|
          invariant memories == start + Readable(listing[..k])
          invariant FirstError(listing[..k]).None?
        {
          assert listing[..k + 1][..k] == listing[..k];
          var error := EntryError(listing[k]);
          if error.Some? {
            CollectErrorAt(dirs, CategoryDirs, c, listing, k);
            return Err(error.value);
          }
          if YieldsSome(listing[k]) {
            memories := memories + [listing[k].contents.value.value];
          }
        }
        assert listing[..|listing|] == listing;
      }
      assert CategoryDirs[..|CategoryDirs|] == CategoryDirs;
      r := Ok(SortNewestFirst(memories));
    }

    /** `get_memories_by_category`: the readable memories of that category's directory,
        newest first; none when the directory is missing, and the first error of the listing
        when an entry cannot be scanned. */
    method GetMemoriesByCategory(category: MemoryCategory) returns (r: Result<seq<MemoryEntry>, string>)
      ensures CategoryDir(category) !in dirs ==> r == Ok([])
      ensures CategoryDir(category) in dirs && FirstError(dirs[CategoryDir(category)]).Some? ==>
        r == Err(FirstError(dirs[CategoryDir(category)]).value)
      ensures CategoryDir(category) in dirs && FirstError(dirs[CategoryDir(category)]).None? ==>
        r == Ok(SortNewestFirst(Readable(dirs[CategoryDir(category)])))
    {
      var name := CategoryDir(category);
      if name !in dirs {
        return Ok([]);
      }
      var listing := dirs[name];
      var memories: seq<MemoryEntry> := [];
      for k := 0 to |listing|
        invariant memories == Readable(listing[..k])
        invariant FirstError(listing[..k]).None?
      {
        assert listing[..k + 1][..k] == listing[..k];
        var error := EntryError(listing[k]);
        if error.Some? {
          FirstErrorAt(listing, k);
          return Err(error.value);
        }
        if YieldsSome(listing[k]) {
          memories := memories + [listing[k].contents.value.value];
        }
      }
      assert listing[..|listing|] == listing;
      r := Ok(SortNewestFirst(memories));
    }

    /** `update_metadata`: the metadata's total becomes the number of readable memories; a
        listing error is passed on and the metadata is left as it was. */
    method UpdateMetadata() returns (r: Result<Unit, string>)
      modifies this
      ensures projectPath == old(projectPath) && dirs == old(dirs)
      ensures CollectError(dirs, CategoryDirs).Some? ==>
        r == Err(CollectError(dirs, CategoryDirs).value) && metadata == old(metadata)
      ensures CollectError(dirs, CategoryDirs).None? ==>
        r == Ok(Unit) && metadata == Some(MemoryMetadata(projectPath, |CollectAll(dirs, CategoryDirs)|, Settings.PackageVersion))
    {
      var all := GetAllMemories();
      if all.Err? {
        return Err(all.error);
      }
      metadata := Some(MemoryMetadata(projectPath, |all.value|, Settings.PackageVersion));
      r := Ok(Unit);
    }

    /** `add_memory` with `entryId` the fresh identifier and `now` the current time: the entry
        is written as "<id>.json" in its category's directory, then the metadata is updated;
        when the listing fails there, the memory stays written and the error is returned. */
    method AddMemory(content: string, category: MemoryCategory, entryId: string, now: int) returns (r: Result<string, string>)
      requires Valid()
      modifies this
      ensures Valid()
      ensures projectPath == old(projectPath)
      ensures dirs == old(dirs)[CategoryDir(category) :=
        WriteFile(old(dirs)[CategoryDir(category)], entryId + ".json", Some(MemoryEntry(entryId, content, category, now, now)))]
      ensures CollectError(dirs, CategoryDirs).Some? ==>
        r == Err(CollectError(dirs, CategoryDirs).value) && metadata == old(metadata)
      ensures CollectError(dirs, CategoryDirs).None? ==>
        r == Ok(entryId) && metadata == Some(MemoryMetadata(projectPath, |CollectAll(dirs, CategoryDirs)|, Settings.PackageVersion))
    {
      var entry := MemoryEntry(entryId, content, category, now, now);
      var name := CategoryDir(category);
      dirs := dirs[name := WriteFile(dirs[name], entryId + ".json", Some(entry))];
      var updated := UpdateMetadata();
      if updated.Err? {
        return Err(updated.error);
      }
      r := Ok(entryId);
    }

    /** `get_project_summary`: the summary of all memories, newest first, or the listing's
        error. */
    method GetProjectSummary() returns (r: Result<string, string>)
      ensures CollectError(dirs, CategoryDirs).Some? ==> r == Err(CollectError(dirs, CategoryDirs).value)
      ensures CollectError(dirs, CategoryDirs).None? ==>
        r == Ok(SummaryText(projectPath, SortNewestFirst(CollectAll(dirs, CategoryDirs))))
    {
      var listed := GetAllMemories();
      if listed.Err? {
        return Err(listed.error);
      }
      var memories := listed.value;
      if memories == [] {
        return Ok(PathLine(projectPath) + "暂无记忆条目");
      }
      var summary := PathLine(projectPath) + TotalLine(memories) + "\n";
      var ruleCount, preferenceCount, patternCount, contextCount := CountByCategory(memories);
      summary := summary + StatsText(ruleCount, preferenceCount, patternCount, contextCount) + "最近记忆:\n";
      var recent := RecentText(memories);
      r := Ok(summary + recent);
    }
  }

  /** An entry that cannot be scanned, after a clean start of the listing, is the listing's
      first error. */
  lemma FirstErrorAt(listing: seq<DirEntry>, k: nat)
    requires k < |listing| && FirstError(listing[..k]).None? && EntryError(listing[k]).Some?
    ensures FirstError(listing).Some? && FirstError(listing) == EntryError(listing[k])
  {
    FirstErrorPrefix(listing, k + 1);
    assert listing[..k + 1][..k] == listing[..k];
  }

  /** Once a prefix of a listing has an error, the listing's first error is that one. */
  lemma {:induction false} FirstErrorPrefix(listing: seq<DirEntry>, n: nat)
    requires n <= |listing| && FirstError(listing[..n]).Some?
    ensures FirstError(listing) == FirstError(listing[..n])
    decreases |listing| - n
  {
    if n < |listing| {
      assert listing[..n + 1][..n] == listing[..n];
      FirstErrorPrefix(listing, n + 1);
    } else {
      assert listing[..n] == listing;
    }
  }

  /** The whole scan stops at the first failing entry of directory `c` when the directories
      before it and the entries before it scanned cleanly. */
  lemma CollectErrorAt(dirs: map<string, seq<DirEntry>>, names: seq<string>, c: nat, listing: seq<DirEntry>, k: nat)
    requires c < |names| && names[c] in dirs && dirs[names[c]] == listing
    requires CollectError(dirs, names[..c]).None?
    requires k < |listing| && FirstError(listing[..k]).None? && EntryError(listing[k]).Some?
    ensures CollectError(dirs, names).Some? && CollectError(dirs, names) == EntryError(listing[k])
  {
    FirstErrorAt(listing, k);
    assert names[..c + 1][..c] == names[..c];
    CollectErrorPrefix(dirs, names, c + 1);
  }

  /** Once a prefix of the directories has an error, the whole scan's first error is that one. */
  lemma {:induction false} CollectErrorPrefix(dirs: map<string, seq<DirEntry>>, names: seq<string>, n: nat)
    requires n <= |names| && CollectError(dirs, names[..n]).Some?
    ensures CollectError(dirs, names) == CollectError(dirs, names[..n])
    decreases |names| - n
  {
    if n < |names| {
      assert names[..n + 1][..n] == names[..n];
      CollectErrorPrefix(dirs, names, n + 1);
    } else {
      assert names[..n] == names;
    }
  }

  /** The counting loop of `get_project_summary`: one counter per category. */
  method CountByCategory(memories: seq<MemoryEntry>) returns (rule: nat, preference: nat, pattern: nat, context: nat)
    ensures rule == CountCategory(memories, Rule) && preference == CountCategory(memories, Preference)
    ensures pattern == CountCategory(memories, Pattern) && context == CountCategory(memories, Context)
  {
    rule, preference, pattern, context := 0, 0, 0, 0;
    for i := 0 to |memories|
      invariant rule == CountCategory(memories[..i], Rule)
      invariant preference == CountCategory(memories[..i], Preference)
      invariant pattern == CountCategory(memories[..i], Pattern)
      invariant context == CountCategory(memories[..i], Context)
    {
      assert memories[..i + 1][..i] == memories[..i];
      match memories[i].category
      case Rule => rule := rule + 1;
      case Preference => preference := preference + 1;
      case Pattern => pattern := pattern + 1;
      case Context => context := context + 1;
    }
    assert memories[..|memories|] == memories;
  }

  /** The recent-list loop of `get_project_summary`: a line for each of the first five. */
  method RecentText(memories: seq<MemoryEntry>) returns (text: string)
    ensures text == Concat(RecentLines(memories))
  {
    var recent := RecentLines(memories);
    var n := if |memories| < 5 then |memories| else 5;
    text := "";
    for i := 0 to n
      invariant text == Concat(recent[..i])
    {
      assert recent[..i + 1][..i] == recent[..i];
      text := text + RecentLine(i, memories[i]);
    }
    assert recent[..n] == recent;
  }

  /** After adding a memory under a fresh ".json" name, the metadata counts one more memory
      than the store held before, and the scan fails exactly as it failed before. */
  lemma AddFreshCountsOneMore(dirs: map<string, seq<DirEntry>>, category: MemoryCategory, entryId: string, entry: MemoryEntry)
    requires forall d :: d in CategoryDirs ==> d in dirs
    requires entryId != ""
    requires forall k :: 0 <= k < |dirs[CategoryDir(category)]| ==> !Named(dirs[CategoryDir(category)][k], entryId + ".json")
    ensures var after := dirs[CategoryDir(category) := WriteFile(dirs[CategoryDir(category)], entryId + ".json", Some(entry))];
      |CollectAll(after, CategoryDirs)| == |CollectAll(dirs, CategoryDirs)| + 1
      && CollectError(after, CategoryDirs) == CollectError(dirs, CategoryDirs)
  {
    var d := CategoryDir(category);
    var es := dirs[d];
    var name := entryId + ".json";
    var written := es + [DirEntry(name, Ok(Some(entry)))];
    assert WriteFile(es, name, Some(entry)) == written;
    JsonNameIsJsonFile(entryId);
    ReadableAppend(es, DirEntry(name, Ok(Some(entry))));
    CategoryDirsDistinct();
    CollectAllReplace(dirs, CategoryDirs, d, written);
    assert written[..|es|] == es;
    CollectErrorReplace(dirs, CategoryDirs, d, written);
  }

  /** Appending a parsing ".json" file adds its memory at the end, and no error. */
  lemma ReadableAppend(es: seq<DirEntry>, e: DirEntry)
    requires YieldsSome(e)
    ensures Readable(es + [e]) == Readable(es) + [e.contents.value.value]
    ensures FirstError(es + [e]) == FirstError(es)
  {
    assert (es + [e])[..|es|] == es;
  }

  lemma CategoryDirsDistinct()
    ensures Distinct(CategoryDirs)
  {
  }

  /** A non-empty identifier with ".json" appended names a JSON file. */
  lemma JsonNameIsJsonFile(id: string)
    requires id != ""
    ensures IsJsonFile(id + ".json")
  {
    var name := id + ".json";
    assert name[|id|..] == ".json";
  }
}

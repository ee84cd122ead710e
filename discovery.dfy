/**
 * Module discovery in ModulesManager.__init__ (oono_akira/modules/__init__.py:37-57):
 * the files of the modules directory are taken in sorted order, names
 * containing "__" are skipped, a name must fully match
 * `(_[0-9]+_([0-9a-z_]+))\.py`, and the second group is the module's short
 * name; two files with the same short name raise RuntimeError.
 */
module Discovery {
  import opened Wrappers

  predicate IsDigit(c: char) {
    '0' <= c <= '9'
  }

  predicate IsNameChar(c: char) {
    IsDigit(c) || 'a' <= c <= 'z' || c == '_'
  }

  predicate AllDigits(s: string) {
    forall i :: 0 <= i < |s| ==> IsDigit(s[i])
  }

  predicate AllNameChars(s: string) {
    forall i :: 0 <= i < |s| ==> IsNameChar(s[i])
  }

  /** The length of the run of digits that starts s. */
  function DigitRun(s: string): (n: nat)
    ensures n <= |s| && AllDigits(s[..n])
    ensures n < |s| ==> !IsDigit(s[n])
  {
    if s == [] || !IsDigit(s[0]) then 0
    else
      var n := 1 + DigitRun(s[1..]);
      assert s[..n] == [s[0]] + s[1..][..n - 1];
      n
  }

  /**
   * `re.fullmatch(r"(_[0-9]+_([0-9a-z_]+))\.py", f)`: None, or the two groups.
   * The digits are the whole run after the leading underscore, since a digit
   * run can only be followed by the underscore that separates it from the name.
   */
  function FileMatch(f: string): Option<(string, string)> {
    if |f| == 0 || f[0] != '_' then None
    else
      var n := DigitRun(f[1..]);
      if n == 0 || n + 1 >= |f| || f[n + 1] != '_' then None
      else
        var rest := f[n + 2..];
        if |rest| < 4 || rest[|rest| - 3..] != ".py" then None
        else
          var name := rest[..|rest| - 3];
          if AllNameChars(name) then Some((f[..|f| - 3], name)) else None
  }

  /** The shape the pattern describes, written out. */
  predicate IsModuleFile(f: string, digits: string, name: string) {
    && |digits| > 0 && AllDigits(digits)
    && |name| > 0 && AllNameChars(name)
    && f == "_" + digits + "_" + name + ".py"
  }

  /** Every name FileMatch accepts has the pattern's shape, and the groups are the ones the pattern captures. */
  lemma FileMatchSound(f: string) returns (digits: string)
    requires FileMatch(f).Some?
    ensures IsModuleFile(f, digits, FileMatch(f).value.1)
    ensures FileMatch(f).value.0 == "_" + digits + "_" + FileMatch(f).value.1
  {
    var n := DigitRun(f[1..]);
    digits := f[1..][..n];
    var rest := f[n + 2..];
    var name := rest[..|rest| - 3];
    assert rest == name + ".py";
    assert f == "_" + digits + "_" + rest;
  }

  /** Where the parts of `_<digits>_<name>.py` sit. */
  lemma ModuleFileParts(digits: string, name: string)
    ensures var f := "_" + digits + "_" + name + ".py";
      && |f| == |digits| + |name| + 5
      && f[1..] == digits + ("_" + name + ".py")
      && f[|digits| + 2..] == name + ".py"
      && f[..|f| - 3] == "_" + digits + "_" + name
  {
    var f := "_" + digits + "_" + name + ".py";
    assert f == "_" + (digits + ("_" + name + ".py"));
    assert f == ("_" + digits + "_") + (name + ".py");
    assert f == ("_" + digits + "_" + name) + ".py";
  }

  /** Every name of the pattern's shape is accepted with exactly those groups. */
  lemma FileMatchComplete(f: string, digits: string, name: string)
    requires IsModuleFile(f, digits, name)
    ensures FileMatch(f) == Some(("_" + digits + "_" + name, name))
  {
    var t := "_" + name + ".py";
    ModuleFileParts(digits, name);
    DigitRunOf(digits, t);
    var d := |digits|;
    assert f[d + 1] == f[1..][d] == t[0];
    var rest := f[d + 2..];
    assert rest[|rest| - 3..] == ".py" && rest[..|rest| - 3] == name;
  }

  lemma {:induction false} DigitRunOf(digits: string, tail: string)
    requires AllDigits(digits)
    requires |tail| > 0 && !IsDigit(tail[0])
    ensures DigitRun(digits + tail) == |digits|
    decreases |digits|
  {
    var s := digits + tail;
    if digits == [] {
      assert s == tail;
    } else {
      assert s[0] == digits[0] && IsDigit(s[0]);
      assert s[1..] == digits[1..] + tail;
      assert AllDigits(digits[1..]) by {
        forall i | 0 <= i < |digits[1..]| ensures IsDigit(digits[1..][i]) {
          assert digits[1..][i] == digits[i + 1];
        }
      }
      DigitRunOf(digits[1..], tail);
      assert DigitRun(s) == 1 + DigitRun(s[1..]);
    }
  }

  /** `"__" in f` */
  predicate HasDoubleUnderscore(f: string) {
    exists i :: 0 <= i < |f| - 1 && f[i] == '_' && f[i + 1] == '_'
  }

  /** The import path `oono_akira.modules.<group 1>`. */
  function ModuleImport(group: string): string {
    "oono_akira.modules." + group
  }

  /** Reference definition: the (short name, import path) of every accepted file, in order. */
  function Accepted(files: seq<string>): seq<(string, string)>
    decreases |files|
  {
    if files == [] then []
    else
      var f := files[0];
      var m := FileMatch(f);
      (if HasDoubleUnderscore(f) || m.None? then [] else [(m.value.1, ModuleImport(m.value.0))])
        + Accepted(files[1..])
  }

  predicate HasName(modules: seq<(string, string)>, name: string) {
    exists i :: 0 <= i < |modules| && modules[i].0 == name
  }

  predicate HasDuplicateName(modules: seq<(string, string)>) {
    exists i, j :: 0 <= i < j < |modules| && modules[i].0 == modules[j].0
  }

  /** The discovery loop from the given file on, with the OrderedDict built so far. */
  function DiscoverFrom(files: seq<string>, modules: seq<(string, string)>): Result<seq<(string, string)>, string>
    decreases |files|
  {
    if files == [] then Ok(modules)
    else
      var f := files[0];
      var m := FileMatch(f);
      if HasDoubleUnderscore(f) || m.None? then DiscoverFrom(files[1..], modules)
      else if HasName(modules, m.value.1) then Err("duplicate module name: " + m.value.1)
      else DiscoverFrom(files[1..], modules + [(m.value.1, ModuleImport(m.value.0))])
  }

  /**
   * Discovery yields the accepted files in order when their short names are
   * distinct, and raises exactly when two accepted files share a short name.
   */
  lemma {:induction false} DiscoverCorrect(files: seq<string>, modules: seq<(string, string)>)
    requires !HasDuplicateName(modules)
    ensures DiscoverFrom(files, modules).Ok? ==> DiscoverFrom(files, modules).value == modules + Accepted(files)
    ensures DiscoverFrom(files, modules).Err? <==> HasDuplicateName(modules + Accepted(files))
    decreases |files|
  {
    if files == [] {
      assert modules + [] == modules;
    } else {
      var f := files[0];
      var m := FileMatch(f);
      if HasDoubleUnderscore(f) || m.None? {
        assert Accepted(files) == [] + Accepted(files[1..]) == Accepted(files[1..]);
        DiscoverCorrect(files[1..], modules);
      } else {
        var entry := (m.value.1, ModuleImport(m.value.0));
        var all := modules + Accepted(files);
        assert all == (modules + [entry]) + Accepted(files[1..]);
        if HasName(modules, m.value.1) {
          var i :| 0 <= i < |modules| && modules[i].0 == m.value.1;
          assert all[i].0 == all[|modules|].0;
        } else {
          assert !HasDuplicateName(modules + [entry]);
          DiscoverCorrect(files[1..], modules + [entry]);
        }
      }
    }
  }

  /** The lexicographic code-point order Python uses to compare strings. */
  predicate StrLe(a: string, b: string)
    decreases |a|
  {
    a == [] || (b != [] && (a[0] < b[0] || (a[0] == b[0] && StrLe(a[1..], b[1..]))))
  }

  lemma {:induction false} StrLeTotal(a: string, b: string)
    ensures StrLe(a, b) || StrLe(b, a)
    decreases |a|
  {
    if a != [] && b != [] && a[0] == b[0] {
      StrLeTotal(a[1..], b[1..]);
    }
  }

  lemma {:induction false} StrLeTrans(a: string, b: string, c: string)
    requires StrLe(a, b) && StrLe(b, c)
    ensures StrLe(a, c)
    decreases |a|
  {
    if a != [] && a[0] == b[0] && b[0] == c[0] {
      StrLeTrans(a[1..], b[1..], c[1..]);
    }
  }

  predicate Sorted(s: seq<string>) {
    forall i, j :: 0 <= i < j < |s| ==> StrLe(s[i], s[j])
  }

  function Insert(x: string, s: seq<string>): (r: seq<string>)
    ensures multiset(r) == multiset(s) + multiset{x}
    ensures |r| == |s| + 1
    decreases |s|
  {
    if s == [] || StrLe(x, s[0]) then [x] + s
    else
      var r := [s[0]] + Insert(x, s[1..]);
      assert s == [s[0]] + s[1..];
      r
  }

  /** `sorted(files)`, as an insertion sort. */
  function SortFiles(s: seq<string>): (r: seq<string>)
    ensures multiset(r) == multiset(s)
    decreases |s|
  {
    if s == [] then []
    else
      var r := Insert(s[0], SortFiles(s[1..]));
      assert s == [s[0]] + s[1..];
      r
  }

  lemma {:induction false} InsertSorted(x: string, s: seq<string>)
    requires Sorted(s)
    ensures Sorted(Insert(x, s))
    decreases |s|
  {
    if s == [] || StrLe(x, s[0]) {
      var r := [x] + s;
      forall i, j | 0 <= i < j < |r| ensures StrLe(r[i], r[j]) {
        if i == 0 && j > 1 {
          StrLeTrans(x, s[0], s[j - 1]);
        }
      }
    } else {
      StrLeTotal(x, s[0]);
      InsertSorted(x, s[1..]);
      var tail := Insert(x, s[1..]);
      var r := [s[0]] + tail;
      forall j | 0 <= j < |tail| ensures StrLe(s[0], tail[j]) {
        assert tail[j] in multiset(tail);
        assert tail[j] in multiset(s[1..]) || tail[j] == x;
        if tail[j] != x {
          var k :| 0 <= k < |s[1..]| && s[1..][k] == tail[j];
          assert s[k + 1] == tail[j];
        }
      }
      forall i, j | 0 <= i < j < |r| ensures StrLe(r[i], r[j]) {
        if i > 0 {
          assert r[i] == tail[i - 1] && r[j] == tail[j - 1];
        } else {
          assert r[j] == tail[j - 1];
        }
      }
    }
  }

  /** `sorted` returns its input rearranged into ascending order. */
  lemma {:induction false} SortFilesSorted(s: seq<string>)
    ensures Sorted(SortFiles(s)) && multiset(SortFiles(s)) == multiset(s)
    decreases |s|
  {
    if s != [] {
      SortFilesSorted(s[1..]);
      InsertSorted(s[0], SortFiles(s[1..]));
    }
  }

  /**
   * The loop of `__init__` that fills the OrderedDict of short name to import
   * path from the sorted directory listing.
   */
  method Discover(listing: seq<string>) returns (r: Result<seq<(string, string)>, string>)
    ensures r == DiscoverFrom(SortFiles(listing), [])
  {
    var files := SortFiles(listing);
    var modules: seq<(string, string)> := [];
    var i := 0;
    while i < |files|
      invariant 0 <= i <= |files|
      invariant DiscoverFrom(files[i..], modules) == DiscoverFrom(files, [])
    {
      var file := files[i];
      assert files[i..][1..] == files[i + 1..];
      i := i + 1;
      if HasDoubleUnderscore(file) {
        continue;
      }
      var found := FileMatch(file);
      if found.None? {
        continue;
      }
      var modName := found.value.1;
      var modImport := ModuleImport(found.value.0);
      if HasName(modules, modName) {
        return Err("duplicate module name: " + modName);
      }
      modules := modules + [(modName, modImport)];
    }
    return Ok(modules);
  }
}

/**
 * The per-extension summary logged for every batch: each file's suffix,
 * lower-cased, with the number of files carrying it, listed in ascending
 * order of suffix.
 */
module ExtensionSummary {

  /** Index of the last occurrence of `c` in `s`, or -1 when there is none. */
  function LastIndexOf(s: string, c: char): (r: int)
    ensures -1 <= r < |s|
  {
    if s == [] then -1
    else if s[|s| - 1] == c then |s| - 1
    else LastIndexOf(s[..|s| - 1], c)
  }

  /** The last path component: the text after the last `/`. */
  function FileName(path: string): string
  {
    if path == [] || path[|path| - 1] == '/' then []
    else FileName(path[..|path| - 1]) + [path[|path| - 1]]
  }

  /** Python's `str.lower`, restricted to ASCII letters. */
  function LowerAscii(c: char): char
  {
    if 'A' <= c <= 'Z' then (c as int + 32) as char else c
  }

  function Lower(s: string): string
  {
    seq(|s|, i requires 0 <= i < |s| => LowerAscii(s[i]))
  }

  /**
   * The lower-cased suffix of a path: from the last `.` of the last component,
   * provided that dot is neither the component's first nor its last character;
   * otherwise empty.
   */
  function Suffix(path: string): string
  {
    var name := FileName(path);
    var i := LastIndexOf(name, '.');
    if 0 < i < |name| - 1 then Lower(name[i..]) else ""
  }

  lemma {:induction false} LastIndexOfIsLast(s: string, c: char)
    ensures var r := LastIndexOf(s, c);
            && (0 <= r ==> s[r] == c)
            && forall j :: r < j < |s| ==> s[j] != c
  {
    if s != [] && s[|s| - 1] != c {
      var init := s[..|s| - 1];
      LastIndexOfIsLast(init, c);
      assert forall j :: 0 <= j < |init| ==> init[j] == s[j];
    }
  }

  lemma {:induction false} FileNameHasNoSeparator(path: string)
    ensures '/' !in FileName(path)
  {
    if path != [] && path[|path| - 1] != '/' {
      FileNameHasNoSeparator(path[..|path| - 1]);
    }
  }

  lemma LowerKeeps(s: string)
    ensures |Lower(s)| == |s|
    ensures forall k :: 0 <= k < |s| ==>
      && !('A' <= Lower(s)[k] <= 'Z')
      && (Lower(s)[k] == '.' <==> s[k] == '.')
      && (Lower(s)[k] == '/' <==> s[k] == '/')
  {
  }

  /** A non-empty suffix is a dot followed by at least one character, with no
      further dot, no `/` and no upper-case ASCII letter. */
  lemma SuffixShape(path: string)
    ensures var ext := Suffix(path);
            && (ext == "" || (2 <= |ext| && ext[0] == '.'))
            && (forall k :: 0 <= k < |ext| ==> ext[k] != '/' && !('A' <= ext[k] <= 'Z'))
            && (forall k :: 0 < k < |ext| ==> ext[k] != '.')
  {
    var name := FileName(path);
    var i := LastIndexOf(name, '.');
    if 0 < i < |name| - 1 {
      FileNameHasNoSeparator(path);
      LastIndexOfIsLast(name, '.');
      var tail := name[i..];
      assert forall k :: 0 <= k < |tail| ==> tail[k] == name[i + k];
      LowerKeeps(tail);
    }
  }

  /** The last component is the tail of the path that starts right after its
      last `/` (or at its start when there is none). */
  lemma {:induction false} FileNameIsLastComponent(path: string)
    ensures var j := |path| - |FileName(path)|;
            && 0 <= j
            && path[j..] == FileName(path)
            && (j == 0 || path[j - 1] == '/')
  {
    if path != [] && path[|path| - 1] != '/' {
      FileNameIsLastComponent(path[..|path| - 1]);
    }
  }

  /** Position `n` of `path` starts a suffix: a `.` with at least one character
      after it, no `.` or `/` after it, and a character other than `/` before
      it (so the dot does not open the last component). */
  ghost predicate DottedTailAt(path: string, n: int)
  {
    && 0 < n && n + 1 < |path|
    && path[n] == '.' && path[n - 1] != '/'
    && forall k :: n < k < |path| ==> path[k] != '.' && path[k] != '/'
  }

  /** A dotted tail starts at the last `.` of the last component, and that dot
      is neither the component's first nor its last character. */
  lemma DottedTailIsLastDot(path: string, n: int)
    requires DottedTailAt(path, n)
    ensures var name := FileName(path);
            var i := LastIndexOf(name, '.');
            && n == |path| - |name| + i
            && 0 < i < |name| - 1
  {
    var name := FileName(path);
    var j := |path| - |name|;
    FileNameIsLastComponent(path);
    LastIndexOfIsLast(name, '.');
    assert name[n - j] == path[n];
    assert path[n + 1] == name[n + 1 - j];
  }

  /** When the last component has a suffix, its dot starts a dotted tail. */
  lemma LastDotIsDottedTail(path: string)
    requires var name := FileName(path);
             0 < LastIndexOf(name, '.') < |name| - 1
    ensures var name := FileName(path);
            var n := |path| - |name| + LastIndexOf(name, '.');
            DottedTailAt(path, n) && path[n..] == name[LastIndexOf(name, '.')..]
  {
    var name := FileName(path);
    var j := |path| - |name|;
    var i := LastIndexOf(name, '.');
    var n := j + i;
    FileNameIsLastComponent(path);
    FileNameHasNoSeparator(path);
    LastIndexOfIsLast(name, '.');
    assert path[n] == name[i] && path[n - 1] == name[i - 1];
    forall k | n < k < |path|
      ensures path[k] != '.' && path[k] != '/'
    {
      assert path[k] == name[k - j];
    }
  }

  /** The suffix is non-empty exactly when some position starts a dotted tail,
      and then it is that tail, lower-cased. */
  lemma SuffixIsLastDotTail(path: string)
    ensures (exists n :: DottedTailAt(path, n)) <==> Suffix(path) != ""
    ensures forall n :: DottedTailAt(path, n) ==> Suffix(path) == Lower(path[n..])
  {
    var name := FileName(path);
    var i := LastIndexOf(name, '.');
    forall n | DottedTailAt(path, n)
      ensures Suffix(path) == Lower(path[n..]) != ""
    {
      DottedTailIsLastDot(path, n);
      LastDotIsDottedTail(path);
    }
    if 0 < i < |name| - 1 {
      LastDotIsDottedTail(path);
      assert DottedTailAt(path, |path| - |name| + i);
    }
  }

  /** The files of a batch whose key (for the summary: suffix) is `k`. */
  function FilesWith(files: set<string>, key: string -> string, k: string): set<string>
  {
    set f | f in files && key(f) == k
  }

  function Keys(files: set<string>, key: string -> string): set<string>
  {
    set f | f in files :: key(f)
  }

  /** Number of files per key. */
  function CountsBy(files: set<string>, key: string -> string): map<string, nat>
  {
    map k | k in Keys(files, key) :: |FilesWith(files, key, k)|
  }

  /** Exactly the keys that occur are counted, each at least once. */
  lemma CountsPositive(files: set<string>, key: string -> string)
    ensures CountsBy(files, key).Keys == Keys(files, key)
    ensures forall k :: k in CountsBy(files, key) ==> CountsBy(files, key)[k] >= 1
  {
    forall k | k in Keys(files, key) ensures |FilesWith(files, key, k)| >= 1 {
      var f :| f in files && key(f) == k;
      assert f in FilesWith(files, key, k);
    }
  }

  /** The `extensions` dictionary of a batch: suffix to number of files. */
  function ExtensionCounts(files: set<string>): (m: map<string, nat>)
  {
    CountsBy(files, Suffix)
  }

  lemma FilesWithAdd(seen: set<string>, key: string -> string, f: string, k: string)
    requires f !in seen
    ensures |FilesWith(seen + {f}, key, k)| == |FilesWith(seen, key, k)| + (if key(f) == k then 1 else 0)
  {
    if key(f) == k {
      assert FilesWith(seen + {f}, key, k) == FilesWith(seen, key, k) + {f};
    } else {
      assert FilesWith(seen + {f}, key, k) == FilesWith(seen, key, k);
    }
  }

  /** Adding one new file to a batch bumps the count of its own key and no other. */
  lemma CountsAddFile(seen: set<string>, key: string -> string, f: string)
    requires f !in seen
    ensures var before := CountsBy(seen, key);
            CountsBy(seen + {f}, key) == before[key(f) := (if key(f) in before then before[key(f)] else 0) + 1]
  {
    var before := CountsBy(seen, key);
    var after := CountsBy(seen + {f}, key);
    var e := key(f);
    var expected := before[e := (if e in before then before[e] else 0) + 1];
    assert Keys(seen + {f}, key) == Keys(seen, key) + {e};
    assert after.Keys == expected.Keys;
    forall x | x in after ensures after[x] == expected[x] {
      FilesWithAdd(seen, key, f, x);
      if x == e && e !in before {
        assert FilesWith(seen, key, e) == {};
      }
    }
  }

  /** The counting loop: one pass over the files, in any order, bumping the
      entry of each file's key. */
  method Tally(files: set<string>, key: string -> string) returns (counts: map<string, nat>)
    ensures counts == CountsBy(files, key)
  {
    counts := map[];
    var rest := files;
    assert Keys(files - rest, key) == {};
    while rest != {}
      invariant rest <= files
      invariant counts == CountsBy(files - rest, key)
      decreases |rest|
    {
      var f :| f in rest;
      var k := key(f);
      var count := if k in counts then counts[k] else 0;
      CountsAddFile(files - rest, key, f);
      assert (files - rest) + {f} == files - (rest - {f});
      counts := counts[k := count + 1];
      rest := rest - {f};
    }
    assert files - rest == files;
  }

  /** The `extensions` dictionary of a batch: each suffix with its number of files. */
  method CountExtensions(files: set<string>) returns (extensions: map<string, nat>)
    ensures extensions == ExtensionCounts(files)
  {
    extensions := Tally(files, Suffix);
  }

  /** Python's string order: lexicographic by code point, a proper prefix first. */
  predicate StrLess(a: string, b: string)
  {
    if a == [] then b != []
    else if b == [] then false
    else if a[0] != b[0] then a[0] < b[0]
    else StrLess(a[1..], b[1..])
  }

  lemma {:induction false} StrLessIrreflexive(a: string)
    ensures !StrLess(a, a)
  {
    if a != [] {
      StrLessIrreflexive(a[1..]);
    }
  }

  lemma {:induction false} StrLessTransitive(a: string, b: string, c: string)
    requires StrLess(a, b) && StrLess(b, c)
    ensures StrLess(a, c)
  {
    if a != [] && a[0] == b[0] && b[0] == c[0] {
      StrLessTransitive(a[1..], b[1..], c[1..]);
    }
  }

  lemma {:induction false} StrLessTotal(a: string, b: string)
    requires a != b
    ensures StrLess(a, b) || StrLess(b, a)
  {
    if a != [] && b != [] && a[0] == b[0] {
      assert a == [a[0]] + a[1..] && b == [b[0]] + b[1..];
      StrLessTotal(a[1..], b[1..]);
    }
  }

  /** Smallest string of a non-empty set. */
  method MinKey(keys: set<string>) returns (k: string)
    requires keys != {}
    ensures k in keys
    ensures forall x :: x in keys && x != k ==> StrLess(k, x)
  {
    k :| k in keys;
    var rest := keys - {k};
    ghost var seen := {k};
    while rest != {}
      invariant k in seen && seen + rest == keys && seen !! rest
      invariant forall x :: x in seen && x != k ==> StrLess(k, x)
      decreases |rest|
    {
      var x :| x in rest;
      if StrLess(x, k) {
        forall y | y in seen && y != x ensures StrLess(x, y) {
          if y != k {
            StrLessTransitive(x, k, y);
          }
        }
        k := x;
      } else {
        StrLessTotal(x, k);
      }
      rest := rest - {x};
      seen := seen + {x};
    }
  }

  ghost predicate StrictlySorted(items: seq<(string, nat)>)
  {
    forall i, j :: 0 <= i < j < |items| ==> StrLess(items[i].0, items[j].0)
  }

  function KeysOf(items: seq<(string, nat)>): set<string>
  {
    set i | 0 <= i < |items| :: items[i].0
  }

  /** `items` lists the entries of `m`, each once, in ascending key order. */
  ghost predicate IsSortedItemsOf(items: seq<(string, nat)>, m: map<string, nat>)
  {
    && StrictlySorted(items)
    && KeysOf(items) == m.Keys
    && forall i :: 0 <= i < |items| ==> items[i].0 in m && m[items[i].0] == items[i].1
  }

  /** Loop invariant of SortedItems: `items` lists, in order, the entries of
      `m` whose keys are not in `rest`, all smaller than every key in `rest`. */
  ghost predicate SortedPrefix(items: seq<(string, nat)>, rest: set<string>, m: map<string, nat>)
  {
    && rest <= m.Keys
    && StrictlySorted(items)
    && KeysOf(items) == m.Keys - rest
    && (forall i :: 0 <= i < |items| ==> items[i].0 in m && m[items[i].0] == items[i].1)
    && (forall i, x :: 0 <= i < |items| && x in rest ==> StrLess(items[i].0, x))
  }

  /** Appending the smallest remaining key keeps the invariant. */
  lemma AppendSmallest(items: seq<(string, nat)>, rest: set<string>, m: map<string, nat>, k: string)
    requires SortedPrefix(items, rest, m)
    requires k in rest && forall x :: x in rest && x != k ==> StrLess(k, x)
    ensures SortedPrefix(items + [(k, m[k])], rest - {k}, m)
  {
    var next := items + [(k, m[k])];
    assert forall i :: 0 <= i < |items| ==> next[i] == items[i];
    assert KeysOf(next) == KeysOf(items) + {k} by {
      assert next[|items|].0 == k;
    }
  }

  /** `sorted(m.items())` for a dictionary with string keys. */
  method SortedItems(m: map<string, nat>) returns (items: seq<(string, nat)>)
    ensures IsSortedItemsOf(items, m)
  {
    items := [];
    var rest := m.Keys;
    while rest != {}
      invariant SortedPrefix(items, rest, m)
      decreases |rest|
    {
      var k := MinKey(rest);
      AppendSmallest(items, rest, m, k);
      items := items + [(k, m[k])];
      rest := rest - {k};
    }
  }

  /** The last entry of a sorted item list carries the largest key. */
  lemma LastKeyIsLargest(items: seq<(string, nat)>, m: map<string, nat>)
    requires items != [] && IsSortedItemsOf(items, m)
    ensures var n := |items| - 1;
            && (forall x :: x in m && x != items[n].0 ==> StrLess(x, items[n].0))
            && IsSortedItemsOf(items[..n], m - {items[n].0})
  {
    var n := |items| - 1;
    var k := items[n].0;
    var init := items[..n];
    assert forall i :: 0 <= i < n ==> init[i] == items[i];
    forall x | x in m && x != k ensures StrLess(x, k) {
      var i :| 0 <= i < |items| && items[i].0 == x;
    }
    assert KeysOf(init) == KeysOf(items) - {k} by {
      forall i | 0 <= i < n ensures init[i].0 != k {
        StrLessIrreflexive(k);
      }
    }
  }

  /** A map has one sorted item list only: the summary does not depend on the
      order in which the batch was iterated. */
  lemma {:induction false} SortedItemsUnique(a: seq<(string, nat)>, b: seq<(string, nat)>, m: map<string, nat>)
    requires IsSortedItemsOf(a, m) && IsSortedItemsOf(b, m)
    ensures a == b
  {
    assert a != [] ==> a[0].0 in KeysOf(a);
    assert b != [] ==> b[0].0 in KeysOf(b);
    if a != [] && b != [] {
      var ka, kb := a[|a| - 1].0, b[|b| - 1].0;
      LastKeyIsLargest(a, m);
      LastKeyIsLargest(b, m);
      if ka != kb {
        StrLessTransitive(ka, kb, ka);
        StrLessIrreflexive(ka);
      }
      SortedItemsUnique(a[..|a| - 1], b[..|b| - 1], m - {ka});
      assert a == a[..|a| - 1] + [a[|a| - 1]];
      assert b == b[..|b| - 1] + [b[|b| - 1]];
    }
  }

  /** The ordered (suffix, count) list behind the summary line of a batch. */
  method Summarize(files: set<string>) returns (items: seq<(string, nat)>)
    ensures IsSortedItemsOf(items, ExtensionCounts(files))
  {
    var extensions := CountExtensions(files);
    items := SortedItems(extensions);
  }

  function SumCounts(items: seq<(string, nat)>): nat
  {
    if items == [] then 0 else SumCounts(items[..|items| - 1]) + items[|items| - 1].1
  }

  /** Removing every file of one key removes exactly that entry of the counts. */
  lemma CountsWithout(files: set<string>, key: string -> string, k: string)
    ensures CountsBy(files - FilesWith(files, key, k), key) == CountsBy(files, key) - {k}
  {
    var rest := files - FilesWith(files, key, k);
    assert Keys(rest, key) == Keys(files, key) - {k};
    forall x | x in Keys(rest, key) ensures FilesWith(rest, key, x) == FilesWith(files, key, x) {
    }
  }

  /** Dropping the last entry of a sorted count list leaves the sorted count
      list of the files with the other keys. */
  lemma DropLastEntry(items: seq<(string, nat)>, files: set<string>, key: string -> string)
    requires items != [] && IsSortedItemsOf(items, CountsBy(files, key))
    ensures var n := |items| - 1;
            && items[n].1 == |FilesWith(files, key, items[n].0)|
            && IsSortedItemsOf(items[..n], CountsBy(files - FilesWith(files, key, items[n].0), key))
  {
    var n := |items| - 1;
    var e := items[n].0;
    var init := items[..n];
    CountsWithout(files, key, e);
    assert forall i :: 0 <= i < n ==> init[i] == items[i];
    assert KeysOf(init) == KeysOf(items) - {e} by {
      forall i | 0 <= i < n ensures init[i].0 != e {
        StrLessIrreflexive(e);
      }
    }
  }

  /** The counts listed for a set of files add up to the number of files. */
  lemma {:induction false} CountsSumToSize(items: seq<(string, nat)>, files: set<string>, key: string -> string)
    requires IsSortedItemsOf(items, CountsBy(files, key))
    ensures SumCounts(items) == |files|
  {
    if items == [] {
      CountsPositive(files, key);
      assert forall f :: f in files ==> key(f) in Keys(files, key);
      assert files == {};
    } else {
      var n := |items| - 1;
      var those := FilesWith(files, key, items[n].0);
      DropLastEntry(items, files, key);
      CountsSumToSize(items[..n], files - those, key);
      assert |files| == |files - those| + |those|;
    }
  }

  /** The counts of a batch's summary add up to the number of files in the batch. */
  lemma SummaryCountsSumToBatchSize(items: seq<(string, nat)>, files: set<string>)
    requires IsSortedItemsOf(items, ExtensionCounts(files))
    ensures SumCounts(items) == |files|
  {
    CountsSumToSize(items, files, Suffix);
  }
}

/** The parts of Python's `posixpath` that the pipeline uses to name local
    files: `join`, `dirname` and the extension half of `splitext`. */
module Paths {

  import opened Common

  /** Index of the last occurrence of `c` in `s`, or -1 (`str.rfind`). */
  function LastIndexOf(s: string, c: char): (i: int)
    ensures -1 <= i < |s|
    ensures i >= 0 ==> s[i] == c
    ensures forall j :: i < j < |s| ==> s[j] != c
  {
    if |s| == 0 then -1
    else if s[|s| - 1] == c then |s| - 1
    else LastIndexOf(s[..|s| - 1], c)
  }

  predicate IsAbsolute(p: string)
  {
    |p| > 0 && p[0] == '/'
  }

  /** `os.path.join(a, b)`: an absolute `b` replaces `a`; otherwise a single
      separator is inserted unless `a` is empty or already ends with one. */
  function Join(a: string, b: string): string
  {
    if IsAbsolute(b) then b
    else if a == "" || a[|a| - 1] == '/' then a + b
    else a + "/" + b
  }

  /** Relative names joined under one directory never collide. */
  lemma JoinInjective(a: string, b1: string, b2: string)
    requires !IsAbsolute(b1) && !IsAbsolute(b2)
    requires Join(a, b1) == Join(a, b2)
    ensures b1 == b2
  {
    var r := Join(a, b1);
    if a == "" || a[|a| - 1] == '/' {
      assert b1 == r[|a|..] == b2;
    } else {
      assert b1 == r[|a| + 1..] == b2;
    }
  }

  /** `s.rstrip('/')`. */
  function RStripSlash(s: string): (r: string)
    ensures r <= s
    ensures r == "" || r[|r| - 1] != '/'
    ensures forall j :: |r| <= j < |s| ==> s[j] == '/'
  {
    if |s| > 0 && s[|s| - 1] == '/' then RStripSlash(s[..|s| - 1]) else s
  }

  /** `os.path.dirname(p)`: everything up to the last separator, with
      trailing separators removed unless the head consists only of them. */
  function DirName(p: string): string
  {
    var head := p[..LastIndexOf(p, '/') + 1];
    if RStripSlash(head) != "" then RStripSlash(head)
    else head
  }

  /** The directory of a file joined under `d` is `d` again. */
  lemma DirNameOfJoin(d: string, name: string)
    requires d != "" && d[|d| - 1] != '/'
    requires forall k :: 0 <= k < |name| ==> name[k] != '/'
    ensures DirName(Join(d, name)) == d
  {
    var p := Join(d, name);
    assert p == d + "/" + name;
    var i := LastIndexOf(p, '/');
    assert p[|d|] == '/';
    assert i == |d|;
    var head := p[..i + 1];
    assert head == d + "/";
    assert head[|d| - 1] != '/';
    assert RStripSlash(head) == RStripSlash(d);
  }

  /** The extension half of `os.path.splitext(p)`: from the last dot of the
      last path component, provided a character other than a dot precedes it
      in that component; otherwise empty. */
  function Ext(p: string): (e: string)
    ensures e != "" ==> EndsWith(p, e) && e[0] == '.'
    ensures e != "" ==> forall j :: 0 < j < |e| ==> e[j] != '.' && e[j] != '/'
  {
    var sep := LastIndexOf(p, '/');
    var dot := LastIndexOf(p, '.');
    if dot > sep && exists k :: sep + 1 <= k < dot && p[k] != '.' then p[dot..] else ""
  }

  /** A name whose only dot is its first character has no extension. */
  lemma ExtOfDotfile(rest: string)
    requires forall k :: 0 <= k < |rest| ==> rest[k] != '.' && rest[k] != '/'
    ensures Ext("." + rest) == ""
  {
    var p := "." + rest;
    var sep := LastIndexOf(p, '/');
    var dot := LastIndexOf(p, '.');
    assert p[0] == '.';
    assert forall k :: 0 < k < |p| ==> p[k] == rest[k - 1];
    assert dot == 0;
  }
}

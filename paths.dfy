/**
 * The path operations the conversion runner uses: QFileInfo::baseName and
 * suffix, QDir::cleanPath and QDir::separator() (the launcher is a Windows
 * program, so the separator is a backslash).
 */
module Paths {

  const Separator: char := '\\'

  /** The text after the last c, or all of s when c does not occur. */
  function AfterLast(s: string, c: char): string
    decreases |s|
  {
    if |s| == 0 then ""
    else if s[|s| - 1] == c then ""
    else AfterLast(s[..|s| - 1], c) + [s[|s| - 1]]
  }

  /** The text before the first c, or all of s when c does not occur. */
  function BeforeFirst(s: string, c: char): string
    decreases |s|
  {
    if |s| == 0 then ""
    else if s[0] == c then ""
    else [s[0]] + BeforeFirst(s[1..], c)
  }

  /** AfterLast gives a suffix of s without c. */
  lemma {:induction false} AfterLastShape(s: string, c: char)
    ensures var r := AfterLast(s, c); c !in r && |r| <= |s| && r == s[|s| - |r|..]
    decreases |s|
  {
    if |s| > 0 && s[|s| - 1] != c {
      var init := s[..|s| - 1];
      AfterLastShape(init, c);
      var r' := AfterLast(init, c);
      assert init[|init| - |r'|..] + [s[|s| - 1]] == s[|s| - |r'| - 1..];
    }
  }

  /** BeforeFirst gives a prefix of s without c. */
  lemma {:induction false} BeforeFirstShape(s: string, c: char)
    ensures var r := BeforeFirst(s, c); c !in r && |r| <= |s| && r == s[..|r|]
    decreases |s|
  {
    if |s| > 0 && s[0] != c {
      BeforeFirstShape(s[1..], c);
      var r' := BeforeFirst(s[1..], c);
      assert [s[0]] + s[1..][..|r'|] == s[..|r'| + 1];
    }
  }

  lemma {:induction false} AfterLastOf(a: string, b: string, c: char)
    requires c !in b
    ensures AfterLast(a + [c] + b, c) == b
    decreases |b|
  {
    var s := a + [c] + b;
    if |b| == 0 {
      assert s[|s| - 1] == c;
    } else {
      var init, last := b[..|b| - 1], b[|b| - 1];
      assert last != c by { assert last in b; }
      assert s[|s| - 1] == last;
      assert s[..|s| - 1] == a + [c] + init;
      assert c !in init by {
        forall x | x in init ensures x != c {
          assert x in b;
        }
      }
      AfterLastOf(a, init, c);
      assert AfterLast(s, c) == AfterLast(s[..|s| - 1], c) + [last];
      assert init + [last] == b;
    }
  }

  lemma {:induction false} AfterLastAbsent(s: string, c: char)
    requires c !in s
    ensures AfterLast(s, c) == s
    decreases |s|
  {
    if |s| > 0 {
      assert c !in s[..|s| - 1];
      AfterLastAbsent(s[..|s| - 1], c);
      assert s[..|s| - 1] + [s[|s| - 1]] == s;
    }
  }

  lemma {:induction false} BeforeFirstOf(a: string, b: string, c: char)
    requires c !in a
    ensures BeforeFirst(a + [c] + b, c) == a
    decreases |a|
  {
    var s := a + [c] + b;
    if |a| > 0 {
      assert s[1..] == a[1..] + [c] + b;
      assert c !in a[1..];
      BeforeFirstOf(a[1..], b, c);
      assert [a[0]] + a[1..] == a;
    }
  }

  /** QFileInfo::fileName on Windows: the last path component, after a '/' or a '\'. */
  function FileName(path: string): string {
    AfterLast(ForwardSlashes(path), '/')
  }

  /** QFileInfo::baseName: the file name up to its first '.'. */
  function BaseName(path: string): string {
    BeforeFirst(FileName(path), '.')
  }

  /** QFileInfo::suffix: the file name after its last '.', empty when it has none. */
  function Suffix(path: string): string {
    var name := FileName(path);
    if '.' in name then AfterLast(name, '.') else ""
  }

  /** Neither the base name nor the suffix contains a dot or either separator. */
  lemma NamePartsShape(path: string)
    ensures '.' !in BaseName(path) && '/' !in BaseName(path) && '\\' !in BaseName(path)
    ensures '.' !in Suffix(path) && '/' !in Suffix(path) && '\\' !in Suffix(path)
  {
    var f := ForwardSlashes(path);
    var name := FileName(path);
    ForwardSlashesFacts(path);
    AfterLastShape(f, '/');
    assert '\\' !in name by {
      assert forall i :: 0 <= i < |name| ==> name[i] == f[|f| - |name| + i];
    }
    var b := BaseName(path);
    BeforeFirstShape(name, '.');
    assert forall i :: 0 <= i < |b| ==> b[i] == name[i];
    if '.' in name {
      var r := AfterLast(name, '.');
      AfterLastShape(name, '.');
      assert forall i :: 0 <= i < |r| ==> r[i] == name[|name| - |r| + i];
    }
  }

  lemma {:induction false} ForwardSlashesAppend(a: string, b: string)
    ensures ForwardSlashes(a + b) == ForwardSlashes(a) + ForwardSlashes(b)
    decreases |a|
  {
    if |a| > 0 {
      assert (a + b)[1..] == a[1..] + b;
      ForwardSlashesAppend(a[1..], b);
    } else {
      assert a + b == b;
    }
  }

  /** Either separator ends the directory part. */
  lemma FileNameOf(dir: string, sep: char, name: string)
    requires sep == '/' || sep == '\\'
    requires '/' !in name && '\\' !in name
    ensures FileName(dir + [sep] + name) == name
  {
    ForwardSlashesAppend(dir + [sep], name);
    ForwardSlashesAppend(dir, [sep]);
    assert ForwardSlashes([sep]) == ['/'] by {
      assert [sep][1..] == [];
    }
    ForwardSlashesFacts(name);
    AfterLastOf(ForwardSlashes(dir), name, '/');
  }

  lemma {:induction false} NoCharInJoin(base: string, ext: string, c: char)
    requires c !in base && c !in ext && c != '.'
    ensures c !in base + ['.'] + ext
  {
    var name := base + ['.'] + ext;
    forall i | 0 <= i < |name| ensures name[i] != c {
      if i < |base| { assert name[i] == base[i]; }
      else if i > |base| { assert name[i] == ext[i - |base| - 1]; }
    }
  }

  /**
   * For dir/base.ext or dir\base.ext with a plain base and extension, baseName is base
   * and suffix is ext.
   */
  lemma NameParts(dir: string, sep: char, base: string, ext: string)
    requires sep == '/' || sep == '\\'
    requires '/' !in base && '/' !in ext && '\\' !in base && '\\' !in ext
    requires '.' !in base && '.' !in ext
    ensures BaseName(dir + [sep] + base + "." + ext) == base
    ensures Suffix(dir + [sep] + base + "." + ext) == ext
  {
    var name := base + ['.'] + ext;
    var path := dir + [sep] + name;
    assert dir + [sep] + base + "." + ext == path;
    NoCharInJoin(base, ext, '/');
    NoCharInJoin(base, ext, '\\');
    FileNameOf(dir, sep, name);
    BeforeFirstOf(base, ext, '.');
    assert name[|base|] == '.';
    AfterLastOf(base, ext, '.');
  }

  // ---------------------------------------------------------------------
  // QDir::cleanPath on Windows, without the resolution of "." and ".." components

  function ForwardSlashes(s: string): string
    decreases |s|
  {
    if |s| == 0 then "" else [if s[0] == '\\' then '/' else s[0]] + ForwardSlashes(s[1..])
  }

  predicate NoDoubleSlash(s: string) {
    forall i :: 0 <= i < |s| - 1 ==> !(s[i] == '/' && s[i + 1] == '/')
  }

  /** Drop every '/' that another '/' follows. */
  function Collapse(s: string): string
    decreases |s|
  {
    if |s| <= 1 then s
    else if s[0] == '/' && s[1] == '/' then Collapse(s[1..])
    else [s[0]] + Collapse(s[1..])
  }

  /** A path that starts with two slashes names a server share (a UNC path on Windows). */
  predicate IsUnc(s: string) {
    |s| >= 2 && s[0] == '/' && s[1] == '/'
  }

  /** The root of a drive, such as "C:/". */
  predicate IsDriveRoot(s: string) {
    |s| == 3 && s[1] == ':' && s[2] == '/'
  }

  /** A doubled slash occurs, if at all, only at the very start. */
  predicate NoDoubleSlashAfterStart(s: string) {
    forall i :: 1 <= i < |s| - 1 ==> !(s[i] == '/' && s[i + 1] == '/')
  }

  /** Collapse repeated slashes, keeping the two that open a UNC path. */
  function CollapseKeepingUnc(f: string): string {
    if IsUnc(f) then ['/'] + Collapse(f[1..]) else Collapse(f)
  }

  /** Drop a trailing slash, except from the root "/" and from a drive root. */
  function DropTrailingSlash(s: string): string {
    if |s| > 1 && s[|s| - 1] == '/' && !IsDriveRoot(s) then s[..|s| - 1] else s
  }

  /**
   * QDir::cleanPath on Windows: forward slashes, no repeated slash except the two
   * that open a UNC path, and no trailing slash except for "/" and a drive root.
   */
  function CleanPath(path: string): string {
    DropTrailingSlash(CollapseKeepingUnc(ForwardSlashes(path)))
  }

  lemma {:induction false} ForwardSlashesFacts(s: string)
    ensures |ForwardSlashes(s)| == |s|
    ensures '\\' !in ForwardSlashes(s)
    ensures '\\' !in s ==> ForwardSlashes(s) == s
    decreases |s|
  {
    if |s| > 0 {
      ForwardSlashesFacts(s[1..]);
      if '\\' !in s {
        assert '\\' !in s[1..];
        assert [s[0]] + s[1..] == s;
      }
    }
  }

  /** Each character is converted on its own. */
  lemma {:induction false} ForwardSlashesAt(s: string, i: nat)
    requires i < |s|
    ensures |ForwardSlashes(s)| == |s|
    ensures ForwardSlashes(s)[i] == if s[i] == '\\' then '/' else s[i]
    decreases i
  {
    ForwardSlashesFacts(s);
    if i > 0 {
      ForwardSlashesAt(s[1..], i - 1);
    }
  }

  lemma {:induction false} CollapseEnds(s: string)
    ensures |s| > 0 ==>
      |Collapse(s)| > 0 && Collapse(s)[0] == s[0] && Collapse(s)[|Collapse(s)| - 1] == s[|s| - 1]
    decreases |s|
  {
    if |s| > 1 {
      CollapseEnds(s[1..]);
    }
  }

  lemma {:induction false} CollapseNoDouble(s: string)
    ensures NoDoubleSlash(Collapse(s))
    decreases |s|
  {
    if |s| > 1 {
      var rest := Collapse(s[1..]);
      CollapseNoDouble(s[1..]);
      if !(s[0] == '/' && s[1] == '/') {
        CollapseEnds(s[1..]);
        var r := [s[0]] + rest;
        forall i | 0 <= i < |r| - 1 ensures !(r[i] == '/' && r[i + 1] == '/') {
          if i > 0 {
            assert r[i] == rest[i - 1] && r[i + 1] == rest[i];
          }
        }
      }
    }
  }

  lemma {:induction false} CollapseKeepsBackslashOut(s: string)
    ensures '\\' !in s ==> '\\' !in Collapse(s)
    decreases |s|
  {
    if |s| > 1 {
      assert '\\' !in s ==> '\\' !in s[1..];
      CollapseKeepsBackslashOut(s[1..]);
    }
  }

  lemma {:induction false} CollapseIdentity(s: string)
    ensures NoDoubleSlash(s) ==> Collapse(s) == s
    decreases |s|
  {
    if |s| > 1 && NoDoubleSlash(s) {
      assert NoDoubleSlash(s[1..]) by {
        forall i | 0 <= i < |s[1..]| - 1 ensures !(s[1..][i] == '/' && s[1..][i + 1] == '/') {
          assert s[1..][i] == s[i + 1] && s[1..][i + 1] == s[i + 2];
        }
      }
      CollapseIdentity(s[1..]);
      assert !(s[0] == '/' && s[1] == '/');
      assert [s[0]] + s[1..] == s;
    }
  }

  lemma NoDoubleSlashFromStart(s: string)
    ensures NoDoubleSlash(s) <==> NoDoubleSlashAfterStart(s) && !IsUnc(s)
  {
    if NoDoubleSlashAfterStart(s) && !IsUnc(s) {
      forall i | 0 <= i < |s| - 1 ensures !(s[i] == '/' && s[i + 1] == '/') {
        if i == 0 { assert !IsUnc(s); }
      }
    }
  }

  /** Collapsing with the UNC rule leaves a doubled slash only at the start, and only for a UNC path. */
  lemma CollapseKeepingUncShape(f: string)
    ensures var c := CollapseKeepingUnc(f);
      '\\' !in f ==> '\\' !in c
    ensures NoDoubleSlashAfterStart(CollapseKeepingUnc(f))
    ensures IsUnc(CollapseKeepingUnc(f)) <==> IsUnc(f)
  {
    var c := CollapseKeepingUnc(f);
    if IsUnc(f) {
      var rest := Collapse(f[1..]);
      CollapseNoDouble(f[1..]);
      CollapseEnds(f[1..]);
      CollapseKeepsBackslashOut(f[1..]);
      assert '\\' !in f ==> '\\' !in f[1..];
      forall i | 1 <= i < |c| - 1 ensures !(c[i] == '/' && c[i + 1] == '/') {
        assert c[i] == rest[i - 1] && c[i + 1] == rest[i];
      }
    } else {
      CollapseNoDouble(f);
      CollapseKeepsBackslashOut(f);
      NoDoubleSlashFromStart(c);
    }
  }

  /** Dropping the trailing slash keeps the shape and leaves one only on "/" or a drive root. */
  lemma DropTrailingSlashShape(c: string)
    requires '\\' !in c && NoDoubleSlashAfterStart(c)
    ensures var r := DropTrailingSlash(c);
      '\\' !in r && NoDoubleSlashAfterStart(r) && (IsUnc(r) ==> IsUnc(c))
      && (|r| > 1 && r[|r| - 1] == '/' ==> IsDriveRoot(r))
  {
    if |c| > 1 && c[|c| - 1] == '/' && !IsDriveRoot(c) {
      var r := c[..|c| - 1];
      assert forall i :: 0 <= i < |r| ==> r[i] == c[i];
      if |c| > 2 {
        assert c[|c| - 2] != '/';
      }
    }
  }

  /**
   * A cleaned path has only forward slashes; a doubled slash only as the opening of a
   * UNC path, which the input had; and a trailing slash only on "/" or a drive root.
   */
  lemma CleanPathShape(path: string)
    ensures var r := CleanPath(path);
      '\\' !in r
      && NoDoubleSlashAfterStart(r)
      && (IsUnc(r) ==> IsUnc(ForwardSlashes(path)))
      && (|r| > 1 && r[|r| - 1] == '/' ==> IsDriveRoot(r))
  {
    var f := ForwardSlashes(path);
    ForwardSlashesFacts(path);
    CollapseKeepingUncShape(f);
    DropTrailingSlashShape(CollapseKeepingUnc(f));
  }

  /** A drive root keeps its slash, written either way. */
  lemma DriveRootKept(drive: char)
    requires drive != '/' && drive != '\\'
    ensures CleanPath([drive, ':', '\\']) == [drive, ':', '/']
    ensures CleanPath([drive, ':', '/']) == [drive, ':', '/']
  {
    var back, fore := [drive, ':', '\\'], [drive, ':', '/'];
    assert back[1..] == [':', '\\'] && back[1..][1..] == ['\\'] && ['\\'][1..] == [];
    assert fore[1..] == [':', '/'] && fore[1..][1..] == ['/'] && ['/'][1..] == [];
    assert ForwardSlashes(['\\']) == ['/'] && ForwardSlashes(['/']) == ['/'];
    assert ForwardSlashes([':', '\\']) == [':', '/'] && ForwardSlashes([':', '/']) == [':', '/'];
    assert Collapse([drive, ':', '/']) == [drive, ':', '/'] by {
      assert [drive, ':', '/'][1..] == [':', '/'];
      assert Collapse([':', '/']) == [':', '/'];
    }
  }

  /** A UNC path keeps its two opening slashes. */
  lemma UncPrefixKept(rest: string)
    requires |rest| > 0 && rest[0] != '/' && rest[0] != '\\'
    ensures var r := CleanPath("\\\\" + rest); |r| >= 3 && r[..2] == "//"
  {
    var f := ForwardSlashes("\\\\" + rest);
    assert ("\\\\" + rest)[1..] == "\\" + rest;
    assert ("\\\\" + rest)[2..] == rest;
    var g := ForwardSlashes(rest);
    ForwardSlashesFacts(rest);
    assert ForwardSlashes("\\" + rest) == "/" + g;
    assert f == "//" + g;
    assert |g| == |rest| && g[0] == rest[0];
    assert f[1..] == "/" + g;
    assert (f[1..])[1..] == g;
    var rc := Collapse(g);
    CollapseEnds(g);
    assert Collapse(f[1..]) == "/" + rc;
    var c := CollapseKeepingUnc(f);
    assert c == "//" + rc && |c| >= 3;
  }

  /** Cleaning a cleaned path changes nothing. */
  lemma CleanPathIdempotent(path: string)
    ensures CleanPath(CleanPath(path)) == CleanPath(path)
  {
    var r := CleanPath(path);
    CleanPathShape(path);
    ForwardSlashesFacts(r);
    if IsUnc(r) {
      assert NoDoubleSlash(r[1..]) by {
        forall i | 0 <= i < |r[1..]| - 1 ensures !(r[1..][i] == '/' && r[1..][i + 1] == '/') {
          assert r[1..][i] == r[i + 1] && r[1..][i + 1] == r[i + 2];
        }
      }
      CollapseIdentity(r[1..]);
      assert ['/'] + r[1..] == r;
    } else {
      NoDoubleSlashFromStart(r);
      CollapseIdentity(r);
    }
  }
}

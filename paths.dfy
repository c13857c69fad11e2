/** Path and file-name arithmetic the staging scripts rely on: base names,
    parents, case folding, os.path.splitext, and the two flavours of
    os.path.join used to build command lines. */
module Paths {

  type Name = string

  /** An absolute path, as the sequence of its components below the root. */
  type Path = seq<Name>

  /** os.path.basename: the last component ("" for the root). */
  function Basename(p: Path): Name
  {
    if p == [] then "" else p[|p| - 1]
  }

  /** pathlib's .parent: the root is its own parent. */
  function Parent(p: Path): (r: Path)
    ensures r <= p
    ensures p != [] ==> r + [Basename(p)] == p && |r| == |p| - 1
  {
    if p == [] then [] else p[..|p| - 1]
  }

  predicate StartsWith(s: string, prefix: string)
  {
    prefix <= s
  }

  predicate EndsWith(s: string, suffix: string)
  {
    |suffix| <= |s| && s[|s| - |suffix|..] == suffix
  }

  predicate IsDigit(c: char)
  {
    '0' <= c <= '9'
  }

  function FoldChar(c: char): char
  {
    if 'A' <= c <= 'Z' then (c as int + 32) as char else c
  }

  /** str.casefold, restricted to ASCII letters. */
  function CaseFold(s: string): (r: string)
    ensures |r| == |s|
    decreases |s|
  {
    if s == [] then [] else [FoldChar(s[0])] + CaseFold(s[1..])
  }

  predicate SameIgnoringCase(a: string, b: string)
  {
    CaseFold(a) == CaseFold(b)
  }

  /** Two paths whose rendered strings agree after case folding. */
  predicate SamePathIgnoringCase(p: Path, q: Path)
  {
    |p| == |q| && forall i :: 0 <= i < |p| ==> SameIgnoringCase(p[i], q[i])
  }

  /** str.rfind for one character: -1 when absent. */
  function LastIndexOf(s: string, c: char): (r: int)
    ensures -1 <= r < |s|
    ensures r >= 0 ==> s[r] == c && forall j :: r < j < |s| ==> s[j] != c
    ensures r == -1 ==> forall j :: 0 <= j < |s| ==> s[j] != c
    decreases |s|
  {
    if s == [] then -1
    else if s[|s| - 1] == c then |s| - 1
    else LastIndexOf(s[..|s| - 1], c)
  }

  predicate AllDots(s: string)
  {
    forall j :: 0 <= j < |s| ==> s[j] == '.'
  }

  /** os.path.splitext on a single name: the extension runs from the last dot
      to the end, unless only dots precede that dot (".so" has no extension). */
  function SplitExt(name: string): (r: (string, string))
    ensures r.0 + r.1 == name
    ensures r.1 != "" ==> r.1[0] == '.' && !AllDots(r.0)
    ensures forall j :: 1 <= j < |r.1| ==> r.1[j] != '.'
  {
    var i := LastIndexOf(name, '.');
    if i < 0 || AllDots(name[..i]) then (name, "") else (name[..i], name[i..])
  }

  /** The split of a name that does not start with a dot and whose last
      dot is at i. */
  lemma SplitExtAt(name: string, i: nat)
    requires 0 < i < |name| && name[0] != '.' && name[i] == '.'
    requires forall j :: i < j < |name| ==> name[j] != '.'
    ensures SplitExt(name) == (name[..i], name[i..])
  {
    var r := LastIndexOf(name, '.');
    assert r >= i;
    assert name[..i][0] != '.';
  }

  /** str(n) for a natural number. */
  function DecimalString(n: nat): (r: string)
    ensures |r| >= 1 && forall j :: 0 <= j < |r| ==> IsDigit(r[j])
  {
    var d := ['0' + (n % 10) as char];
    if n < 10 then d else DecimalString(n / 10) + d
  }

  /** int(ds) for a string of decimal digits. */
  function DecimalValue(ds: string): nat
    requires forall j :: 0 <= j < |ds| ==> IsDigit(ds[j])
    decreases |ds|
  {
    if ds == [] then 0
    else
      assert IsDigit(ds[|ds| - 1]);
      DecimalValue(ds[..|ds| - 1]) * 10 + (ds[|ds| - 1] as int - '0' as int)
  }

  /** int(str(n)) == n */
  lemma {:induction false} DecimalRoundTrip(n: nat)
    ensures DecimalValue(DecimalString(n)) == n
    decreases n
  {
    var d := ['0' + (n % 10) as char];
    if n >= 10 {
      var r := DecimalString(n / 10) + d;
      assert r[..|r| - 1] == DecimalString(n / 10);
      DecimalRoundTrip(n / 10);
    }
  }

  /** posixpath.join(a, b) for a relative b. */
  function PosixJoin(a: string, b: string): (r: string)
    ensures StartsWith(r, a) && EndsWith(r, b)
    ensures |r| <= |a| + 1 + |b|
  {
    if a == [] || a[|a| - 1] == '/' then a + b else a + "/" + b
  }

  predicate IsNtSeparator(c: char)
  {
    c == '\\' || c == '/'
  }

  /** ntpath.join(a, b) for a relative b: no separator after an empty path,
      after a trailing separator, or after a bare drive such as "C:". */
  function NtJoin(a: string, b: string): (r: string)
    ensures StartsWith(r, a) && EndsWith(r, b)
    ensures |r| <= |a| + 1 + |b|
  {
    if a == [] || IsNtSeparator(a[|a| - 1]) || (|a| == 2 && a[1] == ':') then a + b
    else a + "\\" + b
  }
}

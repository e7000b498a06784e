/**
 * Choosing the file name of a new project in a directory: `new_project.tcp`,
 * or the first `new_projectN.tcp`, N = 1, 2, ..., that does not exist yet.
 * Whether a file exists is a parameter: the file system is outside the model.
 */
module SavePath {

  const BaseName: string := "new_project.tcp"

  /** `os.path.join(path, name)` on POSIX, for a relative `name`. */
  function Join(path: string, name: string): (r: string)
    ensures r == path + name || r == path + "/" + name
    ensures r == path + name <==> path == [] || path[|path| - 1] == '/'
  {
    if path == [] || path[|path| - 1] == '/' then path + name else path + "/" + name
  }

  function DigitChar(n: nat): (c: char)
    requires n < 10
    ensures '0' <= c <= '9'
  {
    "0123456789"[n]
  }

  function DigitValue(c: char): nat
    requires '0' <= c <= '9'
  {
    (c - '0') as nat
  }

  /** `"%s" % n` for a non-negative int: its decimal digits. */
  function Decimal(n: nat): (s: string)
    ensures |s| >= 1
    ensures forall k :: 0 <= k < |s| ==> '0' <= s[k] <= '9'
  {
    if n < 10 then [DigitChar(n)] else Decimal(n / 10) + [DigitChar(n % 10)]
  }

  /** Reading decimal digits back as a number. */
  function ParseDecimal(s: string): nat
    requires forall k :: 0 <= k < |s| ==> '0' <= s[k] <= '9'
  {
    if s == [] then 0 else ParseDecimal(s[..|s| - 1]) * 10 + DigitValue(s[|s| - 1])
  }

  lemma {:induction false} DecimalRoundTrip(n: nat)
    ensures ParseDecimal(Decimal(n)) == n
  {
    if n >= 10 {
      var s := Decimal(n);
      assert s[..|s| - 1] == Decimal(n / 10);
      DecimalRoundTrip(n / 10);
    }
  }

  /** `"new_project%s.tcp" % n`. */
  function NumberedName(n: nat): string {
    "new_project" + Decimal(n) + ".tcp"
  }

  /** Distinct numbers give distinct names, and none of them is the base name. */
  lemma NumberedNamesDistinct(i: nat, j: nat)
    ensures NumberedName(i) == NumberedName(j) <==> i == j
    ensures NumberedName(i) != BaseName
  {
    var a, b := NumberedName(i), NumberedName(j);
    if a == b {
      assert Decimal(i) == a[11..|a| - 4];
      assert Decimal(j) == b[11..|b| - 4];
      DecimalRoundTrip(i);
      DecimalRoundTrip(j);
    }
    assert |NumberedName(i)| > |BaseName|;
  }

  /**
   * `test_path` (lines 279-288): the base name if it is free, else the first
   * free numbered name. Every numbered name before it is taken, so the result
   * is the least free one. Python loops forever when every name is taken;
   * callers must leave one free.
   */
  method TestPath(path: string, fileExists: string -> bool) returns (r: string)
    requires !fileExists(Join(path, BaseName)) || exists n: nat :: 1 <= n && !fileExists(Join(path, NumberedName(n)))
    ensures !fileExists(r)
    ensures !fileExists(Join(path, BaseName)) ==> r == Join(path, BaseName)
    ensures fileExists(Join(path, BaseName)) ==>
      exists n: nat :: 1 <= n && r == Join(path, NumberedName(n)) &&
        forall j: nat :: 1 <= j < n ==> fileExists(Join(path, NumberedName(j)))
  {
    var base := Join(path, BaseName);
    if !fileExists(base) {
      return base;
    }
    ghost var w: nat :| 1 <= w && !fileExists(Join(path, NumberedName(w)));
    var i: nat := 1;
    while true
      invariant 1 <= i <= w
      invariant forall j: nat :: 1 <= j < i ==> fileExists(Join(path, NumberedName(j)))
      decreases w - i
    {
      var candidate := Join(path, NumberedName(i));
      if !fileExists(candidate) {
        return candidate;
      }
      i := i + 1;
    }
  }
}
